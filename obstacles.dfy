/** Obstacles (cacti) of the dino game: their geometry, how a batch of them is
    spawned, how they scroll and are culled each frame, and the collision test
    against the dino's fixed hitbox. */
module Obstacles {

  /** Where the first obstacle of a batch appears, and the gap between the
      obstacles of one batch. */
  const SPAWN_X: int := 780
  const SPACING: int := 200
  const OBSTACLE_WIDTH: int := 20
  /** Heights are MIN_HEIGHT plus a draw in [0, HEIGHT_RANGE). */
  const MIN_HEIGHT: int := 20
  const HEIGHT_RANGE: int := 40
  /** A batch holds 1 to MAX_BATCH obstacles. */
  const MAX_BATCH: int := 3
  /** Horizontal distance an obstacle moves per frame. */
  const SPEED: int := 5
  /** An obstacle whose x has reached CULL_X or less is removed. */
  const CULL_X: int := -50
  /** The dino's hitbox starts at DINO_X and is DINO_WIDTH wide. */
  const DINO_X: int := 50
  const DINO_WIDTH: int := 40

  /** The right-most x at which an obstacle can be spawned. */
  const LAST_SPAWN_X: int := SPAWN_X + SPACING * (MAX_BATCH - 1)

  datatype Obstacle = Obstacle(x: int, height: int, width: int)

  /** The shape every obstacle has from its spawn on: a fixed width, a height
      in [MIN_HEIGHT, MIN_HEIGHT + HEIGHT_RANGE), and an x on the grid of
      SPEED that spawning and scrolling never leave. */
  predicate Shaped(o: Obstacle) {
    o.width == OBSTACLE_WIDTH &&
    MIN_HEIGHT <= o.height < MIN_HEIGHT + HEIGHT_RANGE &&
    o.x % SPEED == 0
  }

  /** An obstacle as it is stored between frames: shaped, not yet culled, and
      already moved once since it was spawned. */
  predicate Placed(o: Obstacle) {
    Shaped(o) && CULL_X < o.x <= LAST_SPAWN_X - SPEED
  }

  /** The i-th obstacle of a batch whose height draw was `offset`. */
  function SpawnedAt(i: int, offset: int): Obstacle {
    Obstacle(SPAWN_X + i * SPACING, offset + MIN_HEIGHT, OBSTACLE_WIDTH)
  }

  /** The obstacles pushed by one spawn, one per height draw, in push order. */
  function Batch(offsets: seq<int>): (r: seq<Obstacle>)
    ensures |r| == |offsets|
    ensures forall i :: 0 <= i < |r| ==>
      r[i].x == SPAWN_X + i * SPACING &&
      r[i].width == OBSTACLE_WIDTH &&
      r[i].height == offsets[i] + MIN_HEIGHT
  {
    if offsets == [] then []
    else
      var n := |offsets| - 1;
      Batch(offsets[..n]) + [SpawnedAt(n, offsets[n])]
  }

  /** The spawn loop: push one obstacle per height draw after the existing
      ones. */
  method SpawnBatch(obstacles: seq<Obstacle>, offsets: seq<int>) returns (r: seq<Obstacle>)
    ensures r == obstacles + Batch(offsets)
  {
    r := obstacles;
    var i := 0;
    while i < |offsets|
      invariant 0 <= i <= |offsets|
      invariant r == obstacles + Batch(offsets[..i])
    {
      assert offsets[..i + 1][..i] == offsets[..i];
      r := r + [SpawnedAt(i, offsets[i])];
      i := i + 1;
    }
    assert offsets[..i] == offsets;
  }

  /** A batch drawn from the allowed ranges consists of shaped obstacles that
      all start at or right of SPAWN_X and no further right than
      LAST_SPAWN_X. */
  lemma BatchShaped(offsets: seq<int>)
    requires 1 <= |offsets| <= MAX_BATCH
    requires forall i :: 0 <= i < |offsets| ==> 0 <= offsets[i] < HEIGHT_RANGE
    ensures forall i :: 0 <= i < |offsets| ==>
      Shaped(Batch(offsets)[i]) && SPAWN_X <= Batch(offsets)[i].x <= LAST_SPAWN_X
  {
  }

  /** One frame of scrolling: the map step, which moves every obstacle SPEED
      to the left and touches nothing else. */
  function Shifted(o: Obstacle): Obstacle {
    o.(x := o.x - SPEED)
  }

  function Shift(obs: seq<Obstacle>): (r: seq<Obstacle>)
    ensures |r| == |obs|
    ensures forall i :: 0 <= i < |obs| ==> r[i] == obs[i].(x := obs[i].x - SPEED)
  {
    if obs == [] then [] else [Shifted(obs[0])] + Shift(obs[1..])
  }

  /** The filter step: keep, in order, exactly the obstacles right of CULL_X. */
  function Cull(obs: seq<Obstacle>): (r: seq<Obstacle>)
    ensures |r| <= |obs|
    ensures forall o :: o in r <==> o in obs && o.x > CULL_X
  {
    if obs == [] then []
    else (if obs[0].x > CULL_X then [obs[0]] else []) + Cull(obs[1..])
  }

  /** Culling works element by element: it distributes over concatenation,
      so the obstacles it keeps stay in their original relative order. */
  lemma {:induction false} CullConcat(a: seq<Obstacle>, b: seq<Obstacle>)
    ensures Cull(a + b) == Cull(a) + Cull(b)
  {
    if a == [] {
      assert a + b == b;
    } else {
      assert (a + b)[1..] == a[1..] + b;
      CullConcat(a[1..], b);
    }
  }

  /** Culling a sequence in which no obstacle has reached CULL_X returns it
      unchanged. */
  lemma {:induction false} CullKeepsAll(obs: seq<Obstacle>)
    requires forall i :: 0 <= i < |obs| ==> obs[i].x > CULL_X
    ensures Cull(obs) == obs
  {
    if obs != [] {
      CullKeepsAll(obs[1..]);
    }
  }

  /** The move-and-cull step of a frame. */
  function Advance(obs: seq<Obstacle>): seq<Obstacle> {
    Cull(Shift(obs))
  }

  /** An obstacle survives a frame exactly when it comes from an obstacle 5
      further right that has not yet reached the cull line, so nothing that
      survives has x <= CULL_X. */
  lemma AdvanceMembers(obs: seq<Obstacle>, o: Obstacle)
    ensures o in Advance(obs) <==> o.x > CULL_X && o.(x := o.x + SPEED) in obs
  {
  }

  /** Moving and culling keeps the order of the survivors: it distributes over
      concatenation. */
  lemma AdvanceConcat(a: seq<Obstacle>, b: seq<Obstacle>)
    ensures Advance(a + b) == Advance(a) + Advance(b)
  {
    assert Shift(a + b) == Shift(a) + Shift(b);
    CullConcat(Shift(a), Shift(b));
  }

  /** Shaped obstacles no further right than LAST_SPAWN_X are, after one move
      and cull, placed obstacles. */
  lemma AdvancePlaced(obs: seq<Obstacle>)
    requires forall i :: 0 <= i < |obs| ==> Shaped(obs[i]) && obs[i].x <= LAST_SPAWN_X
    ensures forall i :: 0 <= i < |Advance(obs)| ==> Placed(Advance(obs)[i])
  {
  }

  /** Horizontal overlap of an obstacle with the dino's hitbox. */
  predicate HorizontalOverlap(o: Obstacle) {
    o.x < DINO_X + DINO_WIDTH && o.x + o.width > DINO_X
  }

  /** The per-obstacle collision test, with the dino's vertical position
      written, as in the game, as the negated jump height. Only a grounded
      dino can collide; a grounded one collides with every obstacle it
      overlaps horizontally. */
  function Collides(o: Obstacle, jumpHeight: int): (r: bool)
    ensures jumpHeight > 0 ==> !r
    ensures jumpHeight == 0 && o.height >= 0 ==> (r <==> HorizontalOverlap(o))
  {
    var dinoY := -jumpHeight;
    HorizontalOverlap(o) && dinoY >= 0 && dinoY <= o.height
  }

  /** A grounded dino hits an obstacle of height 30 at x = 60; a dino at
      the top of its jump clears it. */
  lemma CollisionExamples()
    ensures Collides(Obstacle(60, 30, OBSTACLE_WIDTH), 0)
    ensures !Collides(Obstacle(60, 30, OBSTACLE_WIDTH), 200)
  {
  }

  /** Whether some obstacle collides with the dino. */
  function AnyCollides(obs: seq<Obstacle>, jumpHeight: int): (r: bool)
    ensures r <==> exists i :: 0 <= i < |obs| && Collides(obs[i], jumpHeight)
  {
    if obs == [] then false
    else Collides(obs[0], jumpHeight) || AnyCollides(obs[1..], jumpHeight)
  }
}
