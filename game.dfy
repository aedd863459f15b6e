/** One game session and the per-tick update of the main loop, without
    rendering: keys, edge scrolling, the vertical clamp, `move()`, the
    animation counter and collision detection. */
module Game {
  import opened Geometry
  import opened Sprites
  import opened Levels
  import opened Player

  /** `max_iters`: the animation counter runs 0, 1, .., MaxIters and wraps. */
  const MaxIters: int := 3

  /** The key flags read in one tick. */
  datatype Keys = Keys(escape: bool, left: bool, right: bool, up: bool)

  /** The session state: the octopus, the active level, the window size,
      the two background offsets `x` and `x1`, and the counter `iters`. */
  datatype World = World(avatar: Avatar, level: LevelState, w: nat, h: nat,
                         bgX: int, bgX1: int, iters: int)

  /** A tick either ends the session (ESC) or yields the next state. */
  datatype Outcome = Quit | Continue(world: World)

  /** `int(.1*w)`, the left scrolling threshold. */
  function LeftEdge(w: nat): int { w / 10 }

  /** `int(.9*w)`, the right scrolling threshold. */
  function RightEdge(w: nat): int { 9 * w / 10 }

  /** The session right after start-up with the given level specification. */
  function Start(w: nat, h: nat, imgW: nat, imgH: nat, spec: seq<Entity>): World
  {
    World(Spawned(w, h, imgW, imgH), Built(spec), w, h, 0, w, 0)
  }

  /** What the session keeps true from tick to tick: the background offsets
      stay within one window width, the counter within its cycle, and the
      floor sits one pixel above the bottom for the octopus's height. */
  predicate Inv(s: World)
  {
    -(s.w as int) <= s.bgX <= s.w && -(s.w as int) <= s.bgX1 <= s.w &&
    0 <= s.iters <= MaxIters &&
    s.avatar.floor == s.h - s.avatar.rect.h - 1
  }

  /** The key handling: ESC aside, LEFT wins over RIGHT; UP is independent. */
  function Steered(a: Avatar, keys: Keys): Avatar
  {
    var moved := if keys.left then MovedLeft(a) else if keys.right then MovedRight(a) else a;
    if keys.up then moved.(vy := JumpSpeed) else moved
  }

  /** A background offset after the view scrolls right by one step. */
  function ScrolledRight(o: int, w: nat): (r: int)
    ensures -(w as int) <= o <= w ==> -(w as int) <= r <= w
  {
    if o + Step > w then -(w as int) else o + Step
  }

  /** A background offset after the view scrolls left by one step. */
  function ScrolledLeft(o: int, w: nat): (r: int)
    ensures -(w as int) <= o <= w ==> -(w as int) <= r <= w
  {
    if o - Step < -(w as int) then w else o - Step
  }

  /** The two background copies, drawn at offsets o and o1 and each w wide,
      sit side by side one width apart, both within [−w, w]. */
  predicate Tiled(o: int, o1: int, w: nat)
  {
    -(w as int) <= o <= w && -(w as int) <= o1 <= w && (o1 - o == w || o - o1 == w)
  }

  /** The pixel column c of the window is drawn by the copy at offset o. */
  predicate Covers(o: int, w: nat, c: int)
  {
    o <= c < o + w
  }

  /** Tiled copies draw every column of the window. */
  lemma TiledCoversWindow(o: int, o1: int, w: nat, c: int)
    requires Tiled(o, o1, w) && 0 <= c < w
    ensures Covers(o, w, c) || Covers(o1, w, c)
  {
  }

  /** As the loop is written, the first right scroll from start-up (copies at
      0 and w) leaves the copies w + Step apart, and the first Step columns of
      the window are drawn by neither: the wrap to −w drops the step's remainder. */
  lemma ScrollRightLeavesGap(w: nat)
    requires w >= Step
    ensures ScrolledRight(0, w) - ScrolledRight(w, w) == w + Step
    ensures forall c :: 0 <= c < Step ==> !Covers(ScrolledRight(0, w), w, c) && !Covers(ScrolledRight(w, w), w, c)
  {
  }

  /** The same gap at the level of a whole tick: a left-edge trigger in a
      session whose backgrounds are at 0 and w breaks the tiling. */
  lemma EdgeScrollBreaksTiling(s: World, keys: Keys)
    requires !keys.escape && s.bgX == 0 && s.bgX1 == s.w && s.w >= Step
    requires AtLeftEdge(Steered(s.avatar, keys), s.w)
    ensures Tiled(s.bgX, s.bgX1, s.w)
    ensures Ticked(s, keys).world.bgX - Ticked(s, keys).world.bgX1 == s.w + Step
    ensures !Tiled(Ticked(s, keys).world.bgX, Ticked(s, keys).world.bgX1, s.w)
  {
  }

  /** The evidently intended right scroll: an offset that passes w moves back
      by two widths, one whole period of the two-copy strip. */
  function WrappedRight(o: int, w: nat): (r: int)
    ensures r == o + Step || r == o + Step - 2 * w
    ensures w >= Step && -(w as int) <= o <= w ==> -(w as int) <= r <= w
  {
    if o + Step > w then o + Step - 2 * w else o + Step
  }

  /** The evidently intended left scroll: an offset that passes −w moves
      forward by two widths. */
  function WrappedLeft(o: int, w: nat): (r: int)
    ensures r == o - Step || r == o - Step + 2 * w
    ensures w >= Step && -(w as int) <= o <= w ==> -(w as int) <= r <= w
  {
    if o - Step < -(w as int) then o - Step + 2 * w else o - Step
  }

  /** With the corrected wrap the two copies stay exactly one width apart, in
      either direction and for any number of scrolls, so the window is always
      fully drawn (TiledCoversWindow). */
  lemma WrapKeepsTiled(o: int, o1: int, w: nat)
    requires w >= Step && Tiled(o, o1, w)
    ensures Tiled(WrappedRight(o, w), WrappedRight(o1, w), w)
    ensures Tiled(WrappedLeft(o, w), WrappedLeft(o1, w), w)
  {
  }

  predicate AtLeftEdge(a: Avatar, w: nat) { a.x <= LeftEdge(w) }

  predicate AtRightEdge(a: Avatar, w: nat) { !AtLeftEdge(a, w) && a.x + a.rect.w >= RightEdge(w) }

  /** The edge handling: near the left edge the octopus steps back right and
      the world and backgrounds scroll right; near the right edge the mirror image. */
  function Nudged(s: World): World
  {
    if AtLeftEdge(s.avatar, s.w) then
      s.(avatar := MovedRight(s.avatar), level := Shifted(s.level, Step),
         bgX := ScrolledRight(s.bgX, s.w), bgX1 := ScrolledRight(s.bgX1, s.w))
    else if AtRightEdge(s.avatar, s.w) then
      s.(avatar := MovedLeft(s.avatar), level := Shifted(s.level, -Step),
         bgX := ScrolledLeft(s.bgX, s.w), bgX1 := ScrolledLeft(s.bgX1, s.w))
    else s
  }

  /** The vertical clamp against the top and the bottom of the window. */
  function Clamped(a: Avatar, h: nat): Avatar
  {
    if a.y <= 0 then a.(vy := CeilingBounce)
    else if a.y + a.rect.h >= h then a.(vy := FloorBounce)
    else a
  }

  /** The animation counter after one tick. */
  function NextIters(i: int): (r: int)
    ensures 0 <= i <= MaxIters ==> 0 <= r <= MaxIters && (r == 0 <==> i == MaxIters)
  {
    if i == MaxIters then 0 else i + 1
  }

  /** One iteration of the main loop, rendering left out. */
  function Ticked(s: World, keys: Keys): (o: Outcome)
    ensures o.Quit? <==> keys.escape
    // the rectangle mirrors (x, y) at the end of every tick
    ensures o.Continue? ==> o.world.avatar.rect.x == o.world.avatar.x && o.world.avatar.rect.y == o.world.avatar.y
    // the world scrolls by at most one step a tick
    ensures o.Continue? ==> o.world.level.worldShift - s.level.worldShift in {-Step, 0, Step}
    // platforms are never removed; collectibles are never added
    ensures o.Continue? ==> |o.world.level.platforms| == |s.level.platforms|
    ensures o.Continue? ==> |o.world.level.collectibles| <= |s.level.collectibles|
  {
    if keys.escape then Quit
    else
      var edged := Nudged(s.(avatar := Steered(s.avatar, keys)));
      var a := Moved(Clamped(edged.avatar, s.h));
      Continue(edged.(avatar := a.(blocked := FirstHit(edged.level.platforms, a.rect)),
                      level := Collided(edged.level, a.rect),
                      iters := NextIters(s.iters)))
  }

  /** The key delta Steered applies to x. */
  function KeyShift(keys: Keys): int
  {
    if keys.left then -Step else if keys.right then Step else 0
  }

  /** The start-up state satisfies the session invariant. */
  lemma StartValid(w: nat, h: nat, imgW: nat, imgH: nat, spec: seq<Entity>)
    ensures Inv(Start(w, h, imgW, imgH, spec))
  {
  }

  /** Every tick keeps the session invariant. */
  lemma TickKeepsInv(s: World, keys: Keys)
    requires Inv(s) && !keys.escape
    ensures Inv(Ticked(s, keys).world)
  {
  }

  /** With LEFT held, RIGHT makes no difference. */
  lemma LeftBeatsRight(s: World, keys: Keys)
    requires keys.left
    ensures Ticked(s, keys) == Ticked(s, keys.(right := false))
  {
  }

  /** With no horizontal key and the octopus away from both edges, x is
      unchanged and the world does not scroll. */
  lemma StillWithoutHorizontalKeys(s: World, keys: Keys)
    requires !keys.escape && !keys.left && !keys.right
    requires !AtLeftEdge(s.avatar, s.w) && !AtRightEdge(s.avatar, s.w)
    ensures Ticked(s, keys).world.avatar.x == s.avatar.x
    ensures Ticked(s, keys).world.level == Collided(s.level, Ticked(s, keys).world.avatar.rect)
    ensures Ticked(s, keys).world.bgX == s.bgX && Ticked(s, keys).world.bgX1 == s.bgX1
  {
  }

  /** A left-edge trigger moves the octopus right by one step and scrolls the
      world right by the same step; a right-edge trigger is the mirror image. */
  lemma EdgeNudges(s: World, keys: Keys)
    requires !keys.escape
    ensures var a := Steered(s.avatar, keys); var next := Ticked(s, keys).world;
      AtLeftEdge(a, s.w) ==>
        next.avatar.x == a.x + Step &&
        next.level == Collided(Shifted(s.level, Step), next.avatar.rect) &&
        next.bgX == ScrolledRight(s.bgX, s.w) && next.bgX1 == ScrolledRight(s.bgX1, s.w)
    ensures var a := Steered(s.avatar, keys); var next := Ticked(s, keys).world;
      AtRightEdge(a, s.w) ==>
        next.avatar.x == a.x - Step &&
        next.level == Collided(Shifted(s.level, -Step), next.avatar.rect) &&
        next.bgX == ScrolledLeft(s.bgX, s.w) && next.bgX1 == ScrolledLeft(s.bgX1, s.w)
  {
  }

  /** Edge scrolling moves the camera, not the octopus: its position in world
      coordinates (x minus the level's scroll) moves by the keys alone. */
  lemma WorldPositionFollowsKeys(s: World, keys: Keys)
    requires !keys.escape
    ensures var next := Ticked(s, keys).world;
      next.avatar.x - next.level.worldShift == s.avatar.x - s.level.worldShift + KeyShift(keys)
  {
  }

  /** The octopus strictly between the two thresholds stays there: a key step
      that reaches a threshold is undone by the nudge in the same tick. */
  lemma StaysBetweenEdges(s: World, keys: Keys)
    requires !keys.escape
    requires LeftEdge(s.w) < s.avatar.x && s.avatar.x + s.avatar.rect.w < RightEdge(s.w)
    ensures var next := Ticked(s, keys).world;
      LeftEdge(s.w) < next.avatar.x && next.avatar.x + next.avatar.rect.w < RightEdge(s.w)
    ensures var next := Ticked(s, keys).world;
      next.avatar.x == s.avatar.x || next.avatar.x == s.avatar.x + KeyShift(keys)
  {
  }

  /** The edge handling neither reads nor writes the vertical velocity. */
  lemma NudgeIgnoresVelocity(s: World, v: int)
    ensures Nudged(s.(avatar := s.avatar.(vy := v))) == Nudged(s).(avatar := Nudged(s).avatar.(vy := v))
  {
  }

  /** At the top or the bottom of the window the clamp decides the velocity,
      so an UP press in the same tick has no effect. */
  lemma ClampOverridesJump(s: World, keys: Keys)
    requires s.avatar.y <= 0 || s.avatar.y + s.avatar.rect.h >= s.h
    ensures Ticked(s, keys) == Ticked(s, keys.(up := false))
  {
    if !keys.escape && keys.up {
      var plain := s.(avatar := Steered(s.avatar, keys.(up := false)));
      assert s.(avatar := Steered(s.avatar, keys)) == plain.(avatar := plain.avatar.(vy := JumpSpeed));
      NudgeIgnoresVelocity(plain, JumpSpeed);
      var edged := Nudged(plain);
      assert Clamped(edged.avatar.(vy := JumpSpeed), s.h) == Clamped(edged.avatar, s.h);
    }
  }

  /** At the top the octopus drops by CeilingBounce and gravity resumes. */
  lemma CeilingBounces(s: World, keys: Keys)
    requires !keys.escape && s.avatar.y <= 0
    ensures Ticked(s, keys).world.avatar.y == s.avatar.y + CeilingBounce
    ensures Ticked(s, keys).world.avatar.vy == Gravity
  {
  }

  /** Jump, fall, land: from rest on the floor (high enough in the window
      that the clamp stays out of the way), an UP tick followed by a tick with
      no key brings the octopus back to rest on the floor. */
  lemma JumpCycle(s: World, up: Keys, none: Keys)
    requires Inv(s) && s.avatar.y == s.avatar.floor && s.avatar.vy == 0
    requires s.avatar.floor > Gravity
    requires up == Keys(false, false, false, true) && none == Keys(false, false, false, false)
    ensures Ticked(s, up).world.avatar.y == s.avatar.floor + JumpSpeed
    ensures Ticked(s, up).world.avatar.vy == Gravity
    ensures Ticked(Ticked(s, up).world, none).world.avatar.y == s.avatar.floor
    ensures Ticked(Ticked(s, up).world, none).world.avatar.vy == 0
  {
  }

  /** The bottom clamp's velocity is no sentinel: from one pixel below the
      floor, touching the window's bottom, the octopus is pushed up past the
      floor and then keeps rising by two pixels a tick instead of settling. */
  lemma BottomClampDrifts(s: World, none: Keys)
    requires Inv(s) && s.avatar.floor >= 3
    requires s.avatar.y == s.avatar.floor + 1 && s.avatar.vy == 0
    requires none == Keys(false, false, false, false)
    ensures Ticked(s, none).world.avatar.y == s.avatar.floor - 1
    ensures Ticked(s, none).world.avatar.vy == FloorBounce
    ensures Ticked(Ticked(s, none).world, none).world.avatar.y == s.avatar.floor - 3
    ensures Ticked(Ticked(s, none).world, none).world.avatar.vy == FloorBounce
  {
  }

  /** The counter after n ticks from 0. */
  function ItersAfter(n: nat): int
  {
    if n == 0 then 0 else NextIters(ItersAfter(n - 1))
  }

  /** The counter runs through 0 .. MaxIters cyclically, so the animation
      frames advance once every MaxIters + 1 ticks. */
  lemma {:induction false} ItersCycle(n: nat)
    ensures ItersAfter(n) == n % (MaxIters + 1)
  {
    if n > 0 {
      ItersCycle(n - 1);
    }
  }

  /** The running game: the octopus, the active level and the loop's own variables. */
  class Session {
    const player: Octopus
    const level: Level
    const w: nat
    const h: nat
    /** The background offsets `x` and `x1`. */
    var bgX: int
    var bgX1: int
    var iters: int

    function State(): World
      reads this, player, level
    {
      World(player.State(), level.State(), w, h, bgX, bgX1, iters)
    }

    predicate Valid()
      reads this, player, level
    {
      Inv(State())
    }

    /** Start-up of `main` for a background of w by h, an octopus image of
        imgW by imgH and the first level's specification. */
    constructor (w: nat, h: nat, imgW: nat, imgH: nat, spec: seq<Entity>)
      ensures fresh(player) && fresh(level)
      ensures State() == Start(w, h, imgW, imgH, spec)
      ensures Valid()
    {
      this.w, this.h := w, h;
      bgX, bgX1 := 0, w;
      player := new Octopus(w, h, imgW, imgH);
      level := new Level(spec);
      iters := 0;
    }

    /** One iteration of the loop without rendering. */
    method Tick(keys: Keys) returns (quit: bool)
      requires Valid()
      modifies this, player, level
      ensures quit <==> keys.escape
      ensures quit ==> State() == old(State())
      ensures !quit ==> State() == Ticked(old(State()), keys).world
      ensures Valid()
    {
      if keys.escape {
        return true;
      }
      HandleKeys(keys);
      ScrollAtEdges();
      ClampAndMove();
      if iters == MaxIters {
        iters := 0;
      } else {
        iters := iters + 1;
      }
      var hit := level.DetectCollisions(player.rect);
      player.blocked := hit;
      TickKeepsInv(old(State()), keys);
      quit := false;
    }

    /** The key handling of one tick (ESC already ruled out). */
    method HandleKeys(keys: Keys)
      modifies player
      ensures State() == old(State()).(avatar := Steered(old(State()).avatar, keys))
    {
      if keys.left {
        player.MoveLeft();
      } else if keys.right {
        player.MoveRight();
      }
      if keys.up {
        player.vy := player.jumpSpeed;
      }
    }

    /** The edge handling of one tick: nudge the octopus, scroll the level and the backgrounds. */
    method ScrollAtEdges()
      modifies this, player, level
      ensures State() == Nudged(old(State()))
    {
      if player.x <= LeftEdge(w) {
        player.MoveRight();
        level.ShiftWorld(player.step);
        bgX1 := bgX1 + player.step;
        bgX := bgX + player.step;
        if bgX > w {
          bgX := -(w as int);
        }
        if bgX1 > w {
          bgX1 := -(w as int);
        }
      } else if player.x + player.rect.w >= RightEdge(w) {
        player.MoveLeft();
        level.ShiftWorld(-player.step);
        bgX1 := bgX1 - player.step;
        bgX := bgX - player.step;
        if bgX < -(w as int) {
          bgX := w;
        }
        if bgX1 < -(w as int) {
          bgX1 := w;
        }
      }
    }

    /** The vertical clamp against the window, then `move()`. */
    method ClampAndMove()
      modifies player
      ensures State() == old(State()).(avatar := Moved(Clamped(old(State()).avatar, h)))
    {
      if player.y <= 0 {
        player.vy := 2;
      } else if player.y + player.rect.h >= h {
        player.vy := -2;
      }
      player.Move();
    }
  }
}
