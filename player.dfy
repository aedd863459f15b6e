/** The player character (the octopus): its position, its vertical velocity,
    the floor it lands on and the rectangle used for collisions. */
module Player {
  import opened Geometry
  import opened Sprites

  /** `speed[0]`: the horizontal step per key press. */
  const Step: int := 15
  /** `jump_speed`: the vertical velocity an UP press sets. */
  const JumpSpeed: int := -10
  /** The downward velocity `move` sets after a jump or a ceiling bounce. */
  const Gravity: int := 10
  /** The velocity the game sets when the octopus reaches the top of the window;
      `move` treats it, like JumpSpeed, as a signal to resume gravity. */
  const CeilingBounce: int := 2
  /** The velocity the game sets when the octopus reaches the bottom of the window. */
  const FloorBounce: int := -2

  /** The octopus's state: position, vertical velocity `speed[1]`, floor,
      collision rectangle and the platform it last collided with. */
  datatype Avatar = Avatar(x: int, y: int, vy: int, floor: int, rect: Rect, blocked: Option<Entity>)

  /** The octopus as constructed for a window of winW by winH pixels and an
      image of imgW by imgH pixels: at rest on the floor, halfway across. */
  function Spawned(winW: nat, winH: nat, imgW: nat, imgH: nat): Avatar
  {
    var floor := winH - imgH - 1;
    Avatar(winW / 2, floor, 0, floor, Rect(winW / 2, floor, imgW, imgH), None)
  }

  /** One `move()`: integrate the velocity, then update it by the sentinel rules. */
  function Moved(a: Avatar): Avatar
  {
    var y := a.y + a.vy;
    var vy := if a.vy == JumpSpeed || a.vy == CeilingBounce then Gravity
              else if y >= a.floor then 0
              else a.vy;
    a.(y := y, vy := vy, rect := a.rect.(x := a.x, y := y))
  }

  function MovedLeft(a: Avatar): Avatar { a.(x := a.x - Step) }

  function MovedRight(a: Avatar): Avatar { a.(x := a.x + Step) }

  /** n successive calls of `move()` with nothing else in between. */
  function Moves(a: Avatar, n: nat): Avatar
    decreases n
  {
    if n == 0 then a else Moves(Moved(a), n - 1)
  }

  /** The number of `move()` calls a fall at Gravity takes to reach the floor
      from d pixels above it (at least one: velocity is only reset after a move). */
  function TicksToLand(d: nat): nat
  {
    if d == 0 then 1 else (d + Gravity - 1) / Gravity
  }

  /** A step left followed by a step right puts the octopus back where it was. */
  lemma SideStepsCancel(a: Avatar)
    ensures MovedRight(MovedLeft(a)) == a && MovedLeft(MovedRight(a)) == a
  {
  }

  /** Falling at Gravity from at or above the floor: velocity stays Gravity
      until the octopus reaches the floor, after TicksToLand moves, where it
      becomes 0; the octopus ends at most one fall step past the floor. */
  lemma {:induction false} FallLands(a: Avatar)
    requires a.vy == Gravity && a.y <= a.floor
    ensures var n := TicksToLand(a.floor - a.y);
      Moves(a, n).y == a.y + Gravity * n && Moves(a, n).vy == 0 &&
      a.floor <= Moves(a, n).y <= a.floor + Gravity &&
      Moves(a, n).x == a.x && Moves(a, n).rect == a.rect.(x := a.x, y := Moves(a, n).y)
    ensures forall k: nat :: k < TicksToLand(a.floor - a.y) ==> Moves(a, k).vy == Gravity
    decreases a.floor - a.y
  {
    var d := a.floor - a.y;
    var b := Moved(a);
    if d <= Gravity {
      assert TicksToLand(d) == 1;
      assert Moves(a, 1) == Moves(b, 0) == b;
      forall k: nat | k < 1 ensures Moves(a, k).vy == Gravity {
        assert Moves(a, k) == a;
      }
    } else {
      assert b.vy == Gravity && b.y == a.y + Gravity && b.floor == a.floor;
      FallLands(b);
      assert TicksToLand(d) == TicksToLand(d - Gravity) + 1;
      var n := TicksToLand(d);
      assert Moves(a, n) == Moves(b, n - 1);
      forall k: nat | k < n ensures Moves(a, k).vy == Gravity {
        if k > 0 {
          assert Moves(a, k) == Moves(b, k - 1);
        }
      }
    }
  }

  /** A jump from the floor rises one step, falls one step and lands back on
      the floor at rest: Jumping, Falling, Grounded. */
  lemma JumpFromFloor(a: Avatar)
    requires a.y == a.floor && a.vy == JumpSpeed
    ensures Moved(a).vy == Gravity && Moved(a).y == a.floor + JumpSpeed
    ensures Moves(a, 2).y == a.floor && Moves(a, 2).vy == 0
  {
    FallLands(Moved(a));
    assert Moves(a, 2) == Moves(Moved(a), 1);
  }

  /** At rest the octopus stays where it is: velocity 0 is no sentinel, so
      `move()` changes nothing but the rectangle's sync. */
  lemma GroundedStays(a: Avatar)
    requires a.vy == 0
    ensures Moved(a) == a.(rect := a.rect.(x := a.x, y := a.y))
  {
  }

  /** The octopus object, updated in place by the game loop. */
  class Octopus {
    var x: int
    var y: int
    /** `speed[1]`. */
    var vy: int
    const floor: int
    var rect: Rect
    var blocked: Option<Entity>
    /** `speed[0]`, never reassigned after construction. */
    const step: int := Step
    const jumpSpeed: int := JumpSpeed

    function State(): Avatar
      reads this
    {
      Avatar(x, y, vy, floor, rect, blocked)
    }

    /** `Octopus(win_size)` for a window of winW by winH and an image of imgW by imgH. */
    constructor (winW: nat, winH: nat, imgW: nat, imgH: nat)
      ensures floor == winH - imgH - 1
      ensures x == winW / 2 && y == floor && vy == 0
      ensures rect == Rect(x, y, imgW, imgH) && blocked == None
      ensures step == 15 && jumpSpeed == -10
      ensures State() == Spawned(winW, winH, imgW, imgH)
    {
      floor := winH - imgH - 1;
      blocked := None;
      x := winW / 2;
      y := winH - imgH - 1;
      rect := Rect(x, y, imgW, imgH);
      vy := 0;
    }

    /** `move()`. */
    method Move()
      modifies this`y, this`vy, this`rect
      ensures y == old(y) + old(vy)
      ensures old(vy) == JumpSpeed || old(vy) == CeilingBounce ==> vy == Gravity
      ensures old(vy) != JumpSpeed && old(vy) != CeilingBounce ==>
        vy == if y >= floor then 0 else old(vy)
      ensures rect == old(rect).(x := x, y := y)
      ensures State() == Moved(old(State()))
    {
      y := y + vy;
      if vy == jumpSpeed || vy == 2 {
        vy := 10;
      } else if y >= floor {
        vy := 0;
      }
      rect := rect.(x := x, y := y);
    }

    /** `move_left()`: one step left; the rectangle is not resynced here. */
    method MoveLeft()
      modifies this`x
      ensures x == old(x) - step
      ensures State() == MovedLeft(old(State()))
    {
      x := x - step;
    }

    /** `move_right()`: one step right; the rectangle is not resynced here. */
    method MoveRight()
      modifies this`x
      ensures x == old(x) + step
      ensures State() == MovedRight(old(State()))
    {
      x := x + step;
    }
  }
}
