# Octopus side-scroller: a verified model of the game state

This project models the game logic of `octopus.py`, a one-screen pygame
prototype. The player steers an octopus left, right and up over a
scrolling background. Each level holds platforms (fixed entities) and
collectibles (removed when touched). Only the integer state changes are
modelled, once per loop iteration:

- the octopus's position, its vertical velocity and its floor;
- the level's two entity groups and its scroll accumulator;
- the loop's background offsets and its animation counter.

Rendering, asset loading and input polling become parameters.

Modules, one file each:

- `geometry.dfy` (`Geometry`): integer rectangles and the overlap test that pygame's `colliderect` performs.
- `sprites.dfy` (`Sprites`): level entities and ordered sprite groups.
  - `Keep` is the order-preserving filter of a group.
  - `SpriteCollide` is `pygame.sprite.spritecollide`, written as a loop over the group.
- `levels.dfy` (`Levels`): the `Level` class and `LevelState`, its value.
  - `Built`, `Shifted`, `Collided` and `FirstHit` are the specification functions its methods are proved against.
- `player.dfy` (`Player`): the `Octopus` class and `Avatar`, its value.
  - `Moved`, `MovedLeft` and `MovedRight` specify `move`, `move_left` and `move_right`.
- `game.dfy` (`Game`): the `Session` class holds the state of `main`.
  - `Session.Tick` is one iteration of the loop.
  - `Ticked` is that iteration as a function of the previous `World` and the key flags.

Each class exposes `State()`, a datatype value of its fields. Each
state-changing method is proved to turn `old(State())` into the
specification function's result. The game's properties are lemmas about
those functions.

Assumptions and choices:

- Thresholds: `int(.1*w)` and `int(.9*w)` are `w / 10` and `9 * w / 10` on the natural number `w`. The code uses floating point here, and the model does not.
- Start position: `int(win_size[0]/2)` is `winW / 2` on a natural number.
- Overlap test: `Overlaps` is the interval test pygame 1.9 uses: on each axis, one rectangle's start lies inside the other's span. For rectangles of positive size it is exactly "the two share a pixel" (`OverlapsIffCommonPixel`). pygame 2 also refuses zero-size rectangles; for negative or zero sizes the model follows the 1.9 formula.
- Callbacks: each entity's `collision_detected()` is defined in the `levels` module, which is not part of this model. The model records every call, in order, in the log `notified`.
- Sentinel velocities: the velocity machine reacts only to the exact values −10 and 2, and the model keeps that. `BottomClampDrifts` proves one consequence. An octopus one pixel below its floor gets the bottom clamp's −2. That value is no sentinel, so the octopus is pushed above the floor and keeps rising by 2 pixels a tick instead of settling.
- Group order: `pygame.sprite.Group` keeps its members in a dictionary, and pygame promises no order for it. The model assumes insertion order, which Python dictionaries keep from version 3.7. Under that assumption a group's order is the level specification's order. `FirstHit` ("the first overlapping platform") and the order of the callback log rely on it.
- Where the source's own comments and its code differ, the model follows the code:
  - Animation rate: the comment at `octopus.py:185` says the image changes every `max_iters` iterations. The code at lines 251-256 advances the frames once every `max_iters + 1` ticks (`ItersCycle`).
  - Rectangle sync: the comments at `octopus.py:34` and `:43` present `rect` as the octopus's position for collision detection. `move_left` and `move_right` change `x` only. The rectangle catches up with `(x, y)` at the next `move()`, which the loop calls before collision detection (`Ticked` ensures the two agree at the end of every tick).

## Model

| member | source | states |
|---|---|---|
| `Geometry.Overlaps` | octopus.py:141-145 | the collision test used by both `spritecollide` calls; for rectangles of positive size it holds exactly when each rectangle starts before the other ends, on both axes |
| `Geometry.OverlapsIffCommonPixel` | octopus.py:141 | for rectangles of positive size, the collision test holds exactly when the two rectangles share a pixel (both directions) |
| `Geometry.OverlapsSymmetric` | octopus.py:141-145 | the collision test gives the same answer whichever rectangle is the sprite |
| `Geometry.OverlapsTranslate` | octopus.py:134-138 | moving both rectangles by the same horizontal amount leaves the collision test unchanged |
| `Sprites.Keep` | octopus.py:107-111 | filtering a group returns exactly the members that satisfy the predicate, and is no longer than the group |
| `Sprites.KeepAppend` | octopus.py:107-111 | filtering distributes over concatenation, so survivors keep the group's order |
| `Sprites.KeepPartition` | octopus.py:107-111 | two complementary filters split a group: the multisets of the two sides add up to the group |
| `Sprites.SpriteCollide` | octopus.py:141-145 | the loop returns the colliding members in group order; with kill set, the group afterwards is exactly the non-colliding members, otherwise it is unchanged |
| `Levels.ShiftAll` | octopus.py:134-138 | every entity's x moves by k; its y, width, height, flag and position in the group are unchanged |
| `Levels.BuiltPartitions` | octopus.py:102-111 | each specification entity lands in exactly one group, platforms exactly the fixed ones, collectibles exactly the others; the scroll starts at 0 and no callback has run |
| `Levels.ShiftRoundTrip` | octopus.py:126-138 | `shift_world(k)` followed by `shift_world(-k)` restores every entity and `world_shift` |
| `Levels.ShiftCompose` | octopus.py:126-138 | two shifts have the same effect as one shift by their sum |
| `Levels.FirstHitIsFirstOverlap` | octopus.py:141-152 | `detect_collisions` returns None exactly when no platform overlaps, and otherwise the first overlapping platform in group order |
| `Levels.CollisionRemovesExactlyHits` | octopus.py:140-152 | platforms are unchanged; a collectible remains exactly when it does not overlap; the remaining and collected items split the old group; each overlapping platform and then each collected item is called back once |
| `Levels.ShiftKeepsHits` | octopus.py:126-145 | scrolling the entities and the player rectangle by the same amount changes no collision result |
| `Levels.Level.constructor` | octopus.py:94-111 | the loop fills the two groups with the fixed and the non-fixed entities, in specification order; `world_shift` is 0 |
| `Levels.Level.ShiftWorld` | octopus.py:126-138 | the loops leave the level equal to `Shifted(old state, k)`: accumulator plus k, every entity's x plus k |
| `Levels.Level.Notify` | octopus.py:142-147 | the callback log grows by exactly the given entities, in order |
| `Levels.Level.DetectCollisions` | octopus.py:140-152 | returns the first overlapping platform or None, and leaves the level equal to `Collided(old state, r)` |
| `Player.SideStepsCancel` | octopus.py:62-80 | a step left then a step right (or the reverse) restores the octopus exactly |
| `Player.FallLands` | octopus.py:51-56 | falling from at or above the floor, velocity stays 10 for every move before the landing move; after the landing move velocity is 0 and y lies between the floor and the floor plus 10 |
| `Player.JumpFromFloor` | octopus.py:49-56 | a jump from the floor rises 10, switches to gravity, and two moves later the octopus is on the floor at rest |
| `Player.GroundedStays` | octopus.py:51-60 | with velocity 0 a move changes nothing but the rectangle's sync to (x, y) |
| `Player.Octopus.constructor` | octopus.py:36-49 | floor is window height minus image height minus 1; the octopus starts at half the window width on the floor, at rest; the rectangle is at (x, y) with the image's size; step 15, jump speed −10 |
| `Player.Octopus.Move` | octopus.py:51-60 | y grows by the old velocity; velocity −10 or 2 becomes 10; otherwise it becomes 0 once y reaches the floor and is unchanged before; x is unchanged and the rectangle is synced to (x, y) |
| `Player.Octopus.MoveLeft` | octopus.py:62-69 | x decreases by exactly the step and nothing else changes |
| `Player.Octopus.MoveRight` | octopus.py:71-80 | x increases by exactly the step and nothing else changes |
| `Game.ScrolledRight` | octopus.py:216-221 | a background offset inside [−w, w] stays inside it after scrolling right |
| `Game.ScrolledLeft` | octopus.py:225-230 | a background offset inside [−w, w] stays inside it after scrolling left |
| `Game.NextIters` | octopus.py:251-256 | a counter in [0, 3] stays there, and resets to 0 exactly when it was 3 |
| `Game.Ticked` | octopus.py:193-259 | ESC, and only ESC, ends the session; after a continuing tick the rectangle is at (x, y), the world has scrolled by −15, 0 or 15, no platform is lost and no collectible is added |
| `Game.TiledCoversWindow` | octopus.py:170-172 | two background copies one width apart, within [−w, w], together draw every column of the window |
| `Game.ScrollRightLeavesGap` | octopus.py:216-221 | as written, the first right scroll from offsets 0 and w leaves the copies w + 15 apart and window columns 0-14 drawn by neither |
| `Game.EdgeScrollBreaksTiling` | octopus.py:213-221 | as written, a left-edge trigger with the backgrounds at 0 and w turns a tiled pair into one w + 15 apart, no longer tiled |
| `Game.WrappedRight` | octopus.py:216-221 | corrected right scroll: the offset moves by 15, or by 15 minus two widths, and stays within [−w, w] |
| `Game.WrappedLeft` | octopus.py:225-230 | corrected left scroll: the offset moves by −15, or by −15 plus two widths, and stays within [−w, w] |
| `Game.WrapKeepsTiled` | octopus.py:213-230 | with the corrected wrap, tiled copies stay tiled after a scroll in either direction |
| `Game.StartValid` | octopus.py:169-185 | the start-up state satisfies the session invariant |
| `Game.TickKeepsInv` | octopus.py:193-259 | every tick keeps both background offsets in [−w, w], the counter in [0, 3] and the floor's relation to the window |
| `Game.LeftBeatsRight` | octopus.py:195-205 | with LEFT held, whether RIGHT is held makes no difference to the tick |
| `Game.StillWithoutHorizontalKeys` | octopus.py:198-230 | with no horizontal key and the octopus away from both edges, x, the scroll and the background offsets are unchanged |
| `Game.EdgeNudges` | octopus.py:212-230 | a left-edge trigger adds 15 to x, shifts the world by 15 and scrolls both offsets right; a right-edge trigger is the mirror image with −15 |
| `Game.WorldPositionFollowsKeys` | octopus.py:198-230 | x minus the level's scroll changes by the key step alone, so the edge nudges move only the camera |
| `Game.StaysBetweenEdges` | octopus.py:198-230 | an octopus strictly between the two thresholds stays there; x either stays or moves by the key step |
| `Game.ClampOverridesJump` | octopus.py:209-235 | when the octopus is at the top or the bottom of the window, pressing UP makes no difference to the tick |
| `Game.CeilingBounces` | octopus.py:232-244 | at the top the octopus moves down by 2 and its velocity becomes gravity (10) |
| `Game.JumpCycle` | octopus.py:209-244 | from rest on the floor, an UP tick rises 10 with gravity set, and a following tick with no key lands on the floor at rest |
| `Game.BottomClampDrifts` | octopus.py:232-244 | from one pixel below the floor, the octopus is pushed 2 above the floor with velocity −2 and keeps rising by 2 on the next tick |
| `Game.ItersCycle` | octopus.py:251-256 | after n ticks from 0 the counter is n mod 4, so the frames advance once every 4 ticks |
| `Game.Session.constructor` | octopus.py:164-185 | the session starts with the octopus and the level as constructed, both background offsets at 0 and w, and the counter at 0 |
| `Game.Session.Tick` | octopus.py:193-259 | ESC quits and changes nothing; otherwise the new state is `Ticked(old state, keys)` and the session invariant holds |
| `Game.Session.HandleKeys` | octopus.py:195-210 | the octopus becomes `Steered(old, keys)`: LEFT, otherwise RIGHT, moves x by a step, and UP sets the jump velocity |
| `Game.Session.ScrollAtEdges` | octopus.py:212-230 | the session becomes `Nudged(old state)` (edge nudge, world shift, background wrap) |
| `Game.Session.ClampAndMove` | octopus.py:232-244 | the octopus becomes `Moved(Clamped(old, h))`: clamp velocity 2 at the top, −2 at the bottom, then `move()` |

## Left out

- Rendering and I/O: image loading, window creation, `blit` and `draw`, `display.flip`, `clock.tick` and `pygame.quit`/`sys.exit`. Window and image sizes are constructor parameters, and the tick reads key flags.
- Event polling: a `QUIT` event (lines 188-191) also ends the session. The model folds it into the `escape` key flag.
- Animation frames: the octopus's two image cycles (`imageList.CircularLinkedList`) and the displayed image are not part of this model. The `imageList` module is not part of this model. Only the counter that decides when frames advance is modelled.
- Entity behaviour: entity classes, their `update()` and their `collision_detected()`, and `LEVELS_SPEC` come from the `levels` module, which is not part of this model. `Level.update()` is not modelled: entities are assumed not to move by themselves. Callbacks are a log of calls.
- Entity identity: entities are values. The model does not capture two things.
  - The level specification and the groups share the same entity objects. `shift_world` therefore also moves the stored `level_spec`.
  - A pygame group ignores a second `add` of the same object. The model keeps both copies.
- Other levels: `level_list` builds one level per specification, but only the first is ever used. The session holds that one.
- Unused state: `level_limit`, the unused `player` argument of `Level`, and `active_sprite_list` (always empty). The drawing order of platforms and collectibles is also left out.
- Integer width: pygame stores a `Rect`'s fields as C `int`s, but the model's rectangle coordinates and `world_shift` are unbounded integers. Wrap-around of `platform.rect.x += shift_x` (lines 135 and 138) after more than 2^31 pixels of scrolling is not modelled.
- Floating point: the two thresholds are modelled as integer divisions, which agree with the float computation for window widths far below 2^53.

## Findings

| source | as written | input that shows it | evidently intended | confidence | as-written member | corrected member |
|---|---|---|---|---|---|---|
| octopus.py:216-230 | an offset that passes w is reset to −w (or one that passes −w to w), dropping the remaining part of the 15-pixel step | start-up offsets `x = 0`, `x1 = w` with w >= 15 and one left-edge trigger: the copies land at 15 and −w, so window columns 0-14 are drawn by neither copy | move the offset by two widths so the copies stay exactly w apart and always cover the window | medium, not executed | `Game.EdgeScrollBreaksTiling` | `Game.WrapKeepsTiled` |

The session (`Ticked`, `Session.ScrollAtEdges`) keeps the wrap as written, because it models what the loop does. `WrappedRight` and `WrappedLeft` are the corrected wrap. `WrapKeepsTiled` and `TiledCoversWindow` prove the property it is meant to have.
