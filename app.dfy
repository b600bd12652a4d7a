/** The game component: the record it renders and the three timestamps it
    keeps beside it, with the key handler, start, restart, jump and the frame
    callback as methods. */
module App {
  import opened Obstacles
  import opened Simulation

  /** The code of the only key the game reacts to. */
  const SPACE: string := "Space"

  class Game {
    /** The rendered record. */
    var state: GameState
    /** When the current run started. */
    var startTime: int
    /** When the last batch of obstacles was spawned. */
    var lastObstacleTime: int
    /** When the current jump started. */
    var jumpStartTime: int

    predicate Valid()
      reads this
    {
      Inv(state)
    }

    /** The component as mounted: not started, all timestamps zero. */
    constructor ()
      ensures Valid() && state == INITIAL
      ensures startTime == 0 && lastObstacleTime == 0 && jumpStartTime == 0
    {
      state := INITIAL;
      startTime, lastObstacleTime, jumpStartTime := 0, 0, 0;
    }

    /** Begin a run at time `now`. */
    method Start(now: int)
      modifies this
      ensures Valid() && Active(state)
      ensures state == Cleared(old(state)).(gameStarted := true)
      ensures startTime == now && lastObstacleTime == now
      ensures jumpStartTime == old(jumpStartTime)
    {
      state := state.(gameStarted := true, gameOver := false, score := 0,
                      obstacles := [], isJumping := false, jumpHeight := 0);
      startTime := now;
      lastObstacleTime := now;
    }

    /** Restart after a game over at time `now`; `gameStarted` is left as it
        is. */
    method Reset(now: int)
      modifies this
      ensures Valid() && !state.gameOver
      ensures state == Cleared(old(state))
      ensures startTime == now && lastObstacleTime == now
      ensures jumpStartTime == old(jumpStartTime)
    {
      state := state.(isJumping := false, jumpHeight := 0, score := 0,
                      gameOver := false, obstacles := []);
      startTime := now;
      lastObstacleTime := now;
    }

    /** A jump press at time `now`: start a jump from the ground, or raise a
        jump still inside its window. */
    method Jump(now: int)
      requires Valid()
      modifies this
      ensures Valid()
      ensures state == Jumped(old(state), old(jumpStartTime), now)
      ensures jumpStartTime == (if Active(old(state)) && !old(state.isJumping) then now else old(jumpStartTime))
      ensures startTime == old(startTime) && lastObstacleTime == old(lastObstacleTime)
    {
      if !state.gameOver && state.gameStarted {
        var currentTime := now;
        if !state.isJumping {
          jumpStartTime := currentTime;
          state := state.(isJumping := true, jumpHeight := JUMP_START_HEIGHT);
        } else {
          var timeElapsed := currentTime - jumpStartTime;
          if timeElapsed < JUMP_DURATION {
            state := state.(jumpHeight := Raise(state.jumpHeight));
          }
        }
      }
    }

    /** The key handler: Space starts a game that has not started, restarts
        one that is over, and otherwise jumps; every other key is ignored. */
    method HandleKey(code: string, now: int)
      requires Valid()
      modifies this
      ensures Valid()
      ensures code != SPACE ==>
        state == old(state) && startTime == old(startTime) &&
        lastObstacleTime == old(lastObstacleTime) && jumpStartTime == old(jumpStartTime)
      ensures code == SPACE && !old(state.gameStarted) ==>
        state == Cleared(old(state)).(gameStarted := true) &&
        startTime == now && lastObstacleTime == now && jumpStartTime == old(jumpStartTime)
      ensures code == SPACE && old(state.gameStarted) && old(state.gameOver) ==>
        state == Cleared(old(state)) && state.gameStarted &&
        startTime == now && lastObstacleTime == now && jumpStartTime == old(jumpStartTime)
      ensures code == SPACE && old(Active(state)) ==>
        state == Jumped(old(state), old(jumpStartTime), now) &&
        jumpStartTime == (if old(state.isJumping) then old(jumpStartTime) else now) &&
        startTime == old(startTime) && lastObstacleTime == old(lastObstacleTime)
    {
      if code == SPACE {
        if !state.gameStarted {
          Start(now);
        } else if state.gameOver {
          Reset(now);
        } else {
          Jump(now);
        }
      }
    }

    /** One animation frame at time `now`, with this frame's random draws and
        whether the dino element is mounted. Nothing happens unless the game
        is running; otherwise the record and the spawn time become what the
        state updater gives, and the run's start and the jump's start stay
        put. */
    method Frame(now: int, draws: Draws, mounted: bool)
      requires Valid() && ValidDraws(draws)
      modifies this
      ensures Valid()
      ensures startTime == old(startTime) && jumpStartTime == old(jumpStartTime)
      ensures !old(Active(state)) ==> state == old(state) && lastObstacleTime == old(lastObstacleTime)
      ensures old(Active(state)) ==>
        FrameResult(state, lastObstacleTime) ==
        Update(old(state), old(startTime), old(lastObstacleTime), old(jumpStartTime), now, draws, mounted)
      ensures old(state.score) <= state.score
    {
      if !state.gameStarted || state.gameOver {
        return;
      }
      UpdateInv(state, startTime, lastObstacleTime, jumpStartTime, now, draws, mounted);
      UpdateScoreMonotone(state, startTime, lastObstacleTime, jumpStartTime, now, draws, mounted);
      state, lastObstacleTime := UpdateState(state, startTime, lastObstacleTime, jumpStartTime, now, draws, mounted);
    }
  }

  /** The state updater of one frame, step by step: the landing exit, the
      spawn, the move and cull, the collision exit and the normal exit. It
      returns the new record and the new time of the last spawn. */
  method UpdateState(prev: GameState, startTime: int, lastObstacleTime: int, jumpStart: int,
                     now: int, draws: Draws, mounted: bool)
    returns (next: GameState, lastSpawn: int)
    ensures FrameResult(next, lastSpawn) == Update(prev, startTime, lastObstacleTime, jumpStart, now, draws, mounted)
  {
    var newScore := prev.score + 1;
    var currentTime := now;
    var elapsedTime := currentTime - startTime;
    lastSpawn := lastObstacleTime;

    if prev.isJumping {
      var jumpTimeElapsed := currentTime - jumpStart;
      if jumpTimeElapsed >= JUMP_DURATION {
        next := prev.(isJumping := false, jumpHeight := 0);
        return;
      }
    }

    var newObstacles := prev.obstacles;
    if (elapsedTime > FIRST_SPAWN_DELAY && |newObstacles| == 0) ||
       (currentTime - lastObstacleTime > SPAWN_COOLDOWN && draws.spawnRoll)
    {
      newObstacles := SpawnBatch(newObstacles, draws.offsets);
      lastSpawn := currentTime;
    }
    assert !Lands(prev, jumpStart, now);
    assert SpawnDue(prev, startTime, lastObstacleTime, now, draws.spawnRoll) ==>
      newObstacles == prev.obstacles + Batch(draws.offsets) && lastSpawn == now;
    assert !SpawnDue(prev, startTime, lastObstacleTime, now, draws.spawnRoll) ==>
      newObstacles == prev.obstacles && lastSpawn == lastObstacleTime;

    newObstacles := Advance(newObstacles);
    assert newObstacles == Moved(prev, startTime, lastObstacleTime, now, draws);

    if mounted {
      var hasCollision := AnyCollides(newObstacles, prev.jumpHeight);
      if hasCollision {
        next := prev.(gameOver := true);
        return;
      }
    }

    next := prev.(score := newScore, obstacles := newObstacles);
  }
}
