# Dino game: a verified model of the game's state machine

The game is a single React component (`src/App.tsx`). A dino stands at the
left of a play field, obstacles (cacti) scroll in from the right, and the
Space key starts a run, makes the dino jump, and restarts the game after a
collision. The code also holds a branch that raises a jump on repeated
presses, but as the component is wired that branch never runs (see
"## Findings"). The component keeps a record
(`isJumping`, `jumpHeight`, `score`, `gameOver`, `obstacles`, `gameStarted`)
and three timestamps beside it (run start, last obstacle spawn, jump start).
Every animation frame runs one state update: land a timed-out jump, maybe
spawn a batch of obstacles, move and cull them, test for a collision, and
raise the score.

This project models that state machine in Dafny:

- `obstacles.dfy`, module `Obstacles`: the obstacle record, the spawn batch
  (a function, and the push loop as a method proved against it), the
  move step (map) and cull step (filter), and the collision test with the
  dino's hitbox (`some`).
- `simulation.dfy`, module `Simulation`: the game record, the invariant every
  reachable record satisfies, the jump press as a function, the fields start
  and restart clear, and the frame update as a pure function `Update` of the
  previous record, the three timestamps, the clock reading, the random draws
  and whether the dino element is mounted. Lemmas give its three exits, its
  invariant preservation, score monotonicity and the first-spawn guarantee.
- `app.dfy`, module `App`: class `Game` holding the record and the three
  timestamps as fields, with `Start`, `Reset`, `Jump`, `HandleKey` and
  `Frame` as methods that update them, and `UpdateState`, the frame update
  written step by step and proved equal to `Update`.

The clock is a parameter `now: int` (milliseconds). The random draws of one
frame are a value `Draws(spawnRoll, offsets)`: `spawnRoll` stands for
`Math.random() < 0.2`, `|offsets|` for the batch size (1 to 3) and
`offsets[i]` for the height draw (0 to 39) of the i-th obstacle.
`ValidDraws` states those ranges. Whether the dino element is mounted is a
parameter `mounted: bool`.

Where the game's own texts and the code differ, the model follows the code:

- The collision test sets `dinoY = -jumpHeight` and requires
  `0 <= dinoY <= height`, so only a grounded dino can collide
  (`Obstacles.Collides`). On every reachable record (heights 0, 80, 120, 160
  or 200; obstacle heights 20 to 59) this agrees with the reading "the jump
  height lies in [0, height]" (`Simulation.CollisionNeedsGround`), so the
  sign does not change the game's behaviour.
- The score rises by one per frame, not per obstacle cleared as the in-game
  guide says (src/App.tsx:230). A frame that lands a jump returns early and
  does not raise the score either, so the score does not rise on every frame
  of a running game.

## Model

| member | source | states |
|---|---|---|
| `Obstacles.Batch` | src/App.tsx:119-132 | one obstacle per height draw; the i-th has x = 780 + 200*i, width 20 and height 20 + its draw |
| `Obstacles.SpawnBatch` | src/App.tsx:123-132 | the push loop appends exactly the batch after the existing obstacles, which keep their place |
| `Obstacles.BatchShaped` | src/App.tsx:119-131 | a batch of 1 to 3 draws in range has width 20, heights in [20, 59], x in [780, 1180] on the grid of 5 |
| `Obstacles.Shift` | src/App.tsx:139 | the map step keeps the length and moves each obstacle, in place, exactly 5 to the left, changing nothing else |
| `Obstacles.Cull` | src/App.tsx:140 | the filter step keeps exactly the obstacles with x > -50 and never lengthens the list |
| `Obstacles.CullConcat` | src/App.tsx:140 | the filter works element by element (distributes over concatenation), so survivors keep their order |
| `Obstacles.CullKeepsAll` | src/App.tsx:140 | a list in which no obstacle has reached -50 is kept whole |
| `Obstacles.AdvanceMembers` | src/App.tsx:138-140 | an obstacle survives move-and-cull iff its x is > -50 and it was 5 further right before; nothing with x <= -50 survives |
| `Obstacles.AdvanceConcat` | src/App.tsx:138-140 | move-and-cull distributes over concatenation: relative order is preserved |
| `Obstacles.AdvancePlaced` | src/App.tsx:127-140 | spawned-shape obstacles at x <= 1180 become, after move-and-cull, stored obstacles: -50 < x <= 1175 |
| `Obstacles.Collides` | src/App.tsx:145-161 | an airborne dino never collides; a grounded one collides exactly with the obstacles overlapping [50, 90) horizontally |
| `Obstacles.CollisionExamples` | src/App.tsx:145-161 | a grounded dino collides with an obstacle of height 30 and width 20 at x = 60; a dino at height 200 does not |
| `Obstacles.AnyCollides` | src/App.tsx:145-162 | the `some` test holds iff some obstacle in the list collides |
| `Simulation.InitialInv` | src/App.tsx:14-21 | the mounted record satisfies the game invariant and is not running |
| `Simulation.Raise` | src/App.tsx:44 | a repeated press keeps a reachable airborne height reachable and airborne, never exceeds 200, and strictly raises any height below 200 |
| `Simulation.Jumped` | src/App.tsx:30-49 | a press changes only the jump fields; nothing unless the game runs; from the ground it gives height 80; inside the 1000 ms window it raises; after the window it changes nothing; it keeps the invariant and never lowers the dino |
| `Simulation.StaleJumped` | src/App.tsx:30-49 | the press as the program runs it (the listener, registered again only per line 93, decides on its own record and updates the current one): only the jump fields and the jump start change, the jump start stays or becomes `now`, with the listener's record current it is exactly `Jumped`, and from a grounded listener's record the invariant is kept |
| `Simulation.StaleJumpRestarts` | src/App.tsx:30-37 | as the program runs it, a press during a run decides on the record left by the last start or restart, so it restarts the jump at 80 and moves the jump start to `now`, whatever the current height |
| `Simulation.StaleJumpCounterexample` | src/App.tsx:30-46 | presses at 100 and 200 ms after a start leave height 80 with jump start 200 as the program runs them, and height 120 with the record read current |
| `Simulation.Cleared` | src/App.tsx:51-76 | start and restart both give score 0, no obstacles, grounded, not over, and satisfy the invariant whatever came before |
| `Simulation.Update` | src/App.tsx:99-174 | one frame's record and spawn time (landing, collision and normal exits): gameStarted kept, gameOver never cleared, the score rises by at most one and never falls, the spawn time stays or becomes `now` |
| `Simulation.UpdateInv` | src/App.tsx:99-174 | a frame of a started game keeps the invariant: reachable heights, isJumping iff height != 0, score >= 0, over only when started, every obstacle stored-shape |
| `Simulation.UpdateExits` | src/App.tsx:99-174 | the three exits: landing only grounds the dino; a collision only sets gameOver (score and obstacles keep pre-frame values); otherwise score + 1 and the spawned, moved, culled list; the spawn time is `now` whenever a batch was spawned, even on a collision frame |
| `Simulation.UpdateScoreMonotone` | src/App.tsx:101-173 | no frame lowers the score |
| `Simulation.CollisionNeedsGround` | src/App.tsx:149-159 | on reachable records only a grounded, non-jumping dino collides, and the negated-height test agrees with "0 <= jumpHeight <= height" |
| `Simulation.FirstSpawn` | src/App.tsx:116-140 | after 2000 ms an empty list always gets a batch: a non-landing frame ends normally with one obstacle per draw at 775 + 200*i, score + 1, spawn time `now` |
| `App.Game.constructor` | src/App.tsx:14-27 | the component starts with the initial record, which satisfies the invariant, and zero timestamps |
| `App.Game.Start` | src/App.tsx:51-63 | start clears the record, sets gameStarted, sets run start and last spawn to `now`, leaves the jump start |
| `App.Game.Reset` | src/App.tsx:65-76 | restart clears the record but leaves gameStarted, sets run start and last spawn to `now`, leaves the jump start |
| `App.Game.Jump` | src/App.tsx:30-49 | the record becomes `Jumped` of the old one; the jump start becomes `now` exactly when a jump begins; the invariant is kept |
| `App.Game.HandleKey` | src/App.tsx:79-89 | Space starts when not started, restarts when over, jumps otherwise; any other key changes nothing |
| `App.Game.Frame` | src/App.tsx:95-174 | nothing happens unless the game runs; otherwise record and spawn time become `Update`'s; invariant kept, score never lowered |
| `App.UpdateState` | src/App.tsx:99-174 | the step-by-step updater (landing check, spawn loop, move and cull, collision check, score) returns exactly `Update`'s record and spawn time |

## Left out

- Rendering: the JSX, the CSS transform of the dino and the on-screen texts (src/App.tsx:187-240) are presentation only.
- Scheduling: `requestAnimationFrame`/`cancelAnimationFrame` and the key listener registration (src/App.tsx:91-92, 176-184); a frame and a key press are explicit method calls.
- The clock `Date.now()` is a parameter; start and restart read it twice (src/App.tsx:61-62 and 74-75) and the model uses one reading `now` for both timestamps, which assumes the clock does not move between the two adjacent reads; `Math.random()` and its floating-point `Math.floor(r*k)` arithmetic are replaced by the draws described above.
- The DOM node behind `dinoRef` is reduced to whether it is mounted.
- React's stale closures and effect re-subscription (the dependency lists at src/App.tsx:93 and 185): `Game.Jump` treats the record as one current value, so `jump` and its queued updater see the same record. In the program, `jump` reads the record captured when the listener was last registered. That record is grounded while a run goes on, so every press restarts the jump at 80 and resets the jump start, and the dino lands 1000 ms after the last press. `Simulation.StaleJumped` models that behaviour. The class models the intended repeated-press raise and keeps the first press's jump start (see "## Findings").
- JavaScript numbers are doubles; all quantities here are integers far from any precision limit, so they are modelled as unbounded `int`.
- The frame updater writes the last-spawn timestamp in place in the middle of the frame; the model returns it and `Frame` stores it, which gives the same final state since nothing reads it later in the frame.

## Findings

| source | as written | input that shows it | evidently intended | confidence | as-written member | corrected member |
|---|---|---|---|---|---|---|
| src/App.tsx:30-46 | `jump` tests `gameState.isJumping` from the render that last registered the key listener. That listener is re-registered only when `gameStarted` or `gameOver` changes (the dependency list at line 93), so the test always sees a grounded dino during a run. Every press takes the new-jump branch: height 80, jump start `now` | Space at t=100 and at t=200 after a start: height 80, jump start 200 | a press inside the 1000 ms window raises the height by 40, capped at 200, and keeps the jump start (the raise branch at lines 38-46; the guide at line 228) | high, not executed | `Simulation.StaleJumpCounterexample` (with `Simulation.StaleJumped`, `Simulation.StaleJumpRestarts`) | `Simulation.Jumped`, used by `App.Game.Jump` |
