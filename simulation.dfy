/** The game record and the per-frame update of the dino game, with the clock
    reading and the random draws passed in as values. */
module Simulation {
  import opened Obstacles

  /** How long a jump lasts, in milliseconds. */
  const JUMP_DURATION: int := 1000
  /** Height of a fresh jump, the extra height per repeated press, and the cap. */
  const JUMP_START_HEIGHT: int := 80
  const JUMP_BOOST: int := 40
  const MAX_JUMP_HEIGHT: int := 200
  /** The first batch may appear once FIRST_SPAWN_DELAY ms have passed since
      the run started; random batches need SPAWN_COOLDOWN ms since the last. */
  const FIRST_SPAWN_DELAY: int := 2000
  const SPAWN_COOLDOWN: int := 3000

  datatype GameState = GameState(
    isJumping: bool,
    jumpHeight: int,
    score: int,
    gameOver: bool,
    obstacles: seq<Obstacle>,
    gameStarted: bool)

  /** The record the game is mounted with. */
  const INITIAL: GameState := GameState(false, 0, 0, false, [], false)

  /** The random draws one frame may use: `spawnRoll` stands for the draw
      that succeeds with probability 0.2, the length of `offsets` for the
      batch-size draw (1 to 3), and offsets[i] for the height draw (0 to 39)
      of the i-th obstacle of the batch. */
  datatype Draws = Draws(spawnRoll: bool, offsets: seq<int>)

  /** The ranges the random source can produce. */
  predicate ValidDraws(d: Draws) {
    1 <= |d.offsets| <= MAX_BATCH &&
    forall i :: 0 <= i < |d.offsets| ==> 0 <= d.offsets[i] < HEIGHT_RANGE
  }

  /** Frames run and jumps are accepted only in a running game. */
  predicate Active(g: GameState) {
    g.gameStarted && !g.gameOver
  }

  /** The jump heights the game can reach: grounded, or 80 plus up to three
      boosts of 40. */
  predicate ReachableHeight(h: int) {
    h == 0 || h == 80 || h == 120 || h == 160 || h == 200
  }

  /** What holds of every record the game ever holds. */
  predicate Inv(g: GameState) {
    ReachableHeight(g.jumpHeight) &&
    (g.isJumping <==> g.jumpHeight != 0) &&
    g.score >= 0 &&
    (g.gameOver ==> g.gameStarted) &&
    forall i :: 0 <= i < |g.obstacles| ==> Placed(g.obstacles[i])
  }

  lemma InitialInv()
    ensures Inv(INITIAL) && !Active(INITIAL)
  {
  }

  /** A repeated press adds JUMP_BOOST, capped at MAX_JUMP_HEIGHT. */
  function Raise(h: int): (r: int)
    ensures ReachableHeight(h) && h != 0 ==> ReachableHeight(r) && r != 0
    ensures r <= MAX_JUMP_HEIGHT
    ensures h <= MAX_JUMP_HEIGHT ==> h <= r
    ensures h < MAX_JUMP_HEIGHT ==> h < r
  {
    if h + JUMP_BOOST < MAX_JUMP_HEIGHT then h + JUMP_BOOST else MAX_JUMP_HEIGHT
  }

  /** The record after a jump press at time `now`, for a jump that started at
      `jumpStart`. */
  function Jumped(g: GameState, jumpStart: int, now: int): (r: GameState)
    ensures r == g.(isJumping := r.isJumping, jumpHeight := r.jumpHeight)
    ensures !Active(g) ==> r == g
    ensures Active(g) && !g.isJumping ==> r.isJumping && r.jumpHeight == JUMP_START_HEIGHT
    ensures Active(g) && g.isJumping && now - jumpStart < JUMP_DURATION ==> r.jumpHeight == Raise(g.jumpHeight)
    ensures g.isJumping && now - jumpStart >= JUMP_DURATION ==> r == g
    ensures Inv(g) ==> Inv(r) && g.jumpHeight <= r.jumpHeight
  {
    if !Active(g) then g
    else if !g.isJumping then g.(isJumping := true, jumpHeight := JUMP_START_HEIGHT)
    else if now - jumpStart < JUMP_DURATION then g.(jumpHeight := Raise(g.jumpHeight))
    else g
  }

  /** A jump press: the record it yields and the jump start it leaves. */
  datatype Press = Press(state: GameState, jumpStart: int)

  /** The jump press as the program runs it. The key listener is registered
      again only when `gameStarted` or `gameOver` changes, so `jump` takes
      its decisions on `seen`, the record of the render that registered the
      listener, while its queued updater applies to the current record `g`.
      It changes only the jump fields of the current record and the jump
      start; when the listener's record is the current one it is exactly
      `Jumped`; and from a grounded listener's record it keeps the invariant
      of the current record. */
  function StaleJumped(seen: GameState, g: GameState, jumpStart: int, now: int): (r: Press)
    ensures r.state == g.(isJumping := r.state.isJumping, jumpHeight := r.state.jumpHeight)
    ensures r.jumpStart == jumpStart || r.jumpStart == now
    ensures seen == g ==>
      r == Press(Jumped(g, jumpStart, now), if Active(g) && !g.isJumping then now else jumpStart)
    ensures Inv(g) && !seen.isJumping ==> Inv(r.state)
  {
    if !Active(seen) then Press(g, jumpStart)
    else if !seen.isJumping then Press(g.(isJumping := true, jumpHeight := JUMP_START_HEIGHT), now)
    else if now - jumpStart < JUMP_DURATION then Press(g.(jumpHeight := Raise(g.jumpHeight)), jumpStart)
    else Press(g, jumpStart)
  }

  /** While a run goes on, the listener's record is the one a start or a
      restart left, which is grounded; so every press restarts the jump at
      JUMP_START_HEIGHT and moves the jump start to `now`, whatever the
      current height. */
  lemma StaleJumpRestarts(seen: GameState, g: GameState, jumpStart: int, now: int)
    requires Active(seen) && seen == Cleared(seen)
    ensures StaleJumped(seen, g, jumpStart, now) ==
      Press(g.(isJumping := true, jumpHeight := JUMP_START_HEIGHT), now)
  {
  }

  /** Two presses 100 ms apart after a start: as the program runs them the
      dino is at 80 with the jump started at the second press; with the
      record read current, the second press raises it to 120 and the jump
      keeps its first start. */
  lemma StaleJumpCounterexample()
    ensures var g0 := Cleared(INITIAL).(gameStarted := true);
      var p1 := StaleJumped(g0, g0, 0, 100);
      var p2 := StaleJumped(g0, p1.state, p1.jumpStart, 200);
      && p2.state.jumpHeight == JUMP_START_HEIGHT && p2.jumpStart == 200
      && Jumped(Jumped(g0, 0, 100), 100, 200).jumpHeight == JUMP_START_HEIGHT + JUMP_BOOST
  {
  }

  /** The fields that both starting and restarting clear. */
  function Cleared(g: GameState): (r: GameState)
    ensures Inv(r) && !r.gameOver && r.gameStarted == g.gameStarted
    ensures r.score == 0 && r.obstacles == [] && !r.isJumping && r.jumpHeight == 0
  {
    g.(gameOver := false, score := 0, obstacles := [], isJumping := false, jumpHeight := 0)
  }

  /** The record a frame yields, and the new time of the last spawn. */
  datatype FrameResult = FrameResult(state: GameState, lastObstacleTime: int)

  /** The frame ends early because the jump has timed out. */
  predicate Lands(prev: GameState, jumpStart: int, now: int) {
    prev.isJumping && now - jumpStart >= JUMP_DURATION
  }

  /** A batch is spawned: either the list is empty and the first delay has
      passed, or the cooldown has passed and the random draw succeeded. */
  predicate SpawnDue(prev: GameState, startTime: int, lastObstacleTime: int, now: int, roll: bool) {
    (now - startTime > FIRST_SPAWN_DELAY && |prev.obstacles| == 0) ||
    (now - lastObstacleTime > SPAWN_COOLDOWN && roll)
  }

  /** The obstacle list after this frame's spawn and move-and-cull. */
  function Moved(prev: GameState, startTime: int, lastObstacleTime: int, now: int, d: Draws): seq<Obstacle> {
    Advance(if SpawnDue(prev, startTime, lastObstacleTime, now, d.spawnRoll)
            then prev.obstacles + Batch(d.offsets)
            else prev.obstacles)
  }

  /** One frame's update of the record: the landing exit, the collision exit
      and the normal exit. The spawn time moves to `now` whenever a batch is
      spawned, even if the frame then ends in a collision. */
  function Update(prev: GameState, startTime: int, lastObstacleTime: int, jumpStart: int,
                  now: int, d: Draws, mounted: bool): (r: FrameResult)
    ensures r.state.gameStarted == prev.gameStarted
    ensures prev.gameOver ==> r.state.gameOver
    ensures prev.score <= r.state.score <= prev.score + 1
    ensures r.lastObstacleTime == lastObstacleTime || r.lastObstacleTime == now
  {
    if Lands(prev, jumpStart, now) then
      FrameResult(prev.(isJumping := false, jumpHeight := 0), lastObstacleTime)
    else
      var last := if SpawnDue(prev, startTime, lastObstacleTime, now, d.spawnRoll) then now else lastObstacleTime;
      var moved := Moved(prev, startTime, lastObstacleTime, now, d);
      if mounted && AnyCollides(moved, prev.jumpHeight) then
        FrameResult(prev.(gameOver := true), last)
      else
        FrameResult(prev.(score := prev.score + 1, obstacles := moved), last)
  }

  /** A frame of a running game keeps the game invariant. */
  lemma UpdateInv(prev: GameState, startTime: int, lastObstacleTime: int, jumpStart: int,
                  now: int, d: Draws, mounted: bool)
    requires Inv(prev) && prev.gameStarted && ValidDraws(d)
    ensures Inv(Update(prev, startTime, lastObstacleTime, jumpStart, now, d, mounted).state)
  {
    if !Lands(prev, jumpStart, now) {
      var spawned := if SpawnDue(prev, startTime, lastObstacleTime, now, d.spawnRoll)
                     then prev.obstacles + Batch(d.offsets)
                     else prev.obstacles;
      BatchShaped(d.offsets);
      assert forall i :: 0 <= i < |spawned| ==> Shaped(spawned[i]) && spawned[i].x <= LAST_SPAWN_X;
      AdvancePlaced(spawned);
    }
  }

  /** The three exits of a frame. A landing frame only grounds the dino. A
      collision frame only ends the game: score and obstacles keep their
      pre-frame values. Otherwise the score rises by exactly one and the
      obstacles are the spawned, moved and culled list. Either way the jump
      fields are untouched unless landing, and the spawn time is `now`
      exactly when a batch was spawned. */
  lemma UpdateExits(prev: GameState, startTime: int, lastObstacleTime: int, jumpStart: int,
                    now: int, d: Draws, mounted: bool)
    ensures var r := Update(prev, startTime, lastObstacleTime, jumpStart, now, d, mounted);
      var crash := !Lands(prev, jumpStart, now) && mounted &&
                   AnyCollides(Moved(prev, startTime, lastObstacleTime, now, d), prev.jumpHeight);
      && r.state.gameStarted == prev.gameStarted
      && r.state.gameOver == (prev.gameOver || crash)
      && (Lands(prev, jumpStart, now) ==> r.state == prev.(isJumping := false, jumpHeight := 0))
      && (crash ==> r.state == prev.(gameOver := true))
      && (!Lands(prev, jumpStart, now) && !crash ==>
            r.state == prev.(score := prev.score + 1, obstacles := Moved(prev, startTime, lastObstacleTime, now, d)))
      && (r.state.score == prev.score + 1 <==> !Lands(prev, jumpStart, now) && !crash)
      && (r.state.score != prev.score + 1 ==> r.state.score == prev.score && r.state.obstacles == prev.obstacles)
      && (!Lands(prev, jumpStart, now) ==> r.state.isJumping == prev.isJumping && r.state.jumpHeight == prev.jumpHeight)
      && r.lastObstacleTime == (if !Lands(prev, jumpStart, now) && SpawnDue(prev, startTime, lastObstacleTime, now, d.spawnRoll)
                                then now else lastObstacleTime)
  {
  }

  /** The score never decreases across a frame. */
  lemma UpdateScoreMonotone(prev: GameState, startTime: int, lastObstacleTime: int, jumpStart: int,
                            now: int, d: Draws, mounted: bool)
    ensures prev.score <= Update(prev, startTime, lastObstacleTime, jumpStart, now, d, mounted).state.score
  {
  }

  /** In a reachable record only a grounded dino collides; and there the test
      as written (the negated jump height must lie in [0, height]) agrees
      with "the jump height lies in [0, height]". */
  lemma CollisionNeedsGround(o: Obstacle, prev: GameState)
    requires Inv(prev) && Placed(o)
    ensures Collides(o, prev.jumpHeight) ==> !prev.isJumping && prev.jumpHeight == 0
    ensures Collides(o, prev.jumpHeight) <==>
      HorizontalOverlap(o) && 0 <= prev.jumpHeight <= o.height
  {
  }

  /** After the first delay an empty list always receives a batch: unless the
      frame lands, it ends normally with one obstacle per height draw, each
      5 left of its spawn position, and the spawn time set to `now`. */
  lemma FirstSpawn(prev: GameState, startTime: int, lastObstacleTime: int, jumpStart: int,
                   now: int, d: Draws, mounted: bool)
    requires ValidDraws(d) && prev.obstacles == []
    requires now - startTime > FIRST_SPAWN_DELAY && !Lands(prev, jumpStart, now)
    ensures var r := Update(prev, startTime, lastObstacleTime, jumpStart, now, d, mounted);
      && r.lastObstacleTime == now
      && r.state.score == prev.score + 1
      && |r.state.obstacles| == |d.offsets|
      && forall i :: 0 <= i < |d.offsets| ==>
           r.state.obstacles[i] == Obstacle(SPAWN_X + i * SPACING - SPEED, d.offsets[i] + MIN_HEIGHT, OBSTACLE_WIDTH)
  {
    var b := Batch(d.offsets);
    assert prev.obstacles + b == b;
    var s := Shift(b);
    forall i | 0 <= i < |s|
      ensures s[i] == Obstacle(SPAWN_X + i * SPACING - SPEED, d.offsets[i] + MIN_HEIGHT, OBSTACLE_WIDTH)
      ensures s[i].x > CULL_X && !Collides(s[i], prev.jumpHeight)
    {
      assert s[i] == b[i].(x := b[i].x - SPEED);
    }
    CullKeepsAll(s);
    assert Moved(prev, startTime, lastObstacleTime, now, d) == s;
  }
}
