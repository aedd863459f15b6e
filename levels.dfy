/** A level: its platforms and collectibles, how far the world has been
    scrolled, and the collision step that collects items and reports the
    first wall touched. */
module Levels {
  import opened Geometry
  import opened Sprites

  predicate IsPlatform(e: Entity) { e.isFixed }
  predicate IsCollectible(e: Entity) { !e.isFixed }

  /** The entity scrolled horizontally by k (`rect.x += k`). */
  function ShiftEntity(e: Entity, k: int): Entity
  {
    e.(rect := Translate(e.rect, k))
  }

  /** Every entity of a group scrolled by k, the group's order kept. */
  function ShiftAll(es: seq<Entity>, k: int): (r: seq<Entity>)
    ensures |r| == |es|
    ensures forall i :: 0 <= i < |es| ==>
      r[i].rect.x == es[i].rect.x + k && r[i].rect.y == es[i].rect.y &&
      r[i].rect.w == es[i].rect.w && r[i].rect.h == es[i].rect.h &&
      r[i].isFixed == es[i].isFixed
  {
    if es == [] then [] else [ShiftEntity(es[0], k)] + ShiftAll(es[1..], k)
  }

  /** The state of a level. `notified` logs, in call order, every entity whose
      `collision_detected` callback has run. */
  datatype LevelState = LevelState(platforms: seq<Entity>, collectibles: seq<Entity>,
                                   worldShift: int, notified: seq<Entity>)

  /** The level as its constructor builds it from a level specification. */
  function Built(spec: seq<Entity>): LevelState
  {
    LevelState(Keep(spec, IsPlatform), Keep(spec, IsCollectible), 0, [])
  }

  /** The level after `shift_world(k)`. */
  function Shifted(ls: LevelState, k: int): LevelState
  {
    ls.(platforms := ShiftAll(ls.platforms, k),
        collectibles := ShiftAll(ls.collectibles, k),
        worldShift := ls.worldShift + k)
  }

  /** The value `detect_collisions` returns for a player rectangle r. */
  function FirstHit(platforms: seq<Entity>, r: Rect): Option<Entity>
  {
    var walls := Keep(platforms, HitBy(r));
    if |walls| > 0 then Some(walls[0]) else None
  }

  /** The level after `detect_collisions` for a player rectangle r. */
  function Collided(ls: LevelState, r: Rect): LevelState
  {
    ls.(collectibles := Keep(ls.collectibles, MissedBy(r)),
        notified := ls.notified + Keep(ls.platforms, HitBy(r)) + Keep(ls.collectibles, HitBy(r)))
  }

  /** Construction puts each entity of the specification into exactly one of
      the two groups, chosen by its flag, and starts with no scroll. */
  lemma BuiltPartitions(spec: seq<Entity>)
    ensures multiset(Built(spec).platforms) + multiset(Built(spec).collectibles) == multiset(spec)
    ensures forall e :: e in Built(spec).platforms <==> e in spec && e.isFixed
    ensures forall e :: e in Built(spec).collectibles <==> e in spec && !e.isFixed
    ensures Built(spec).worldShift == 0 && Built(spec).notified == []
  {
    KeepPartition(spec, IsPlatform, IsCollectible);
  }

  /** Shifting by k and then by -k restores every entity and the accumulator. */
  lemma ShiftRoundTrip(ls: LevelState, k: int)
    ensures Shifted(Shifted(ls, k), -k) == ls
  {
    var back := Shifted(Shifted(ls, k), -k);
    assert back.platforms == ls.platforms;
    assert back.collectibles == ls.collectibles;
  }

  /** Two shifts add up to one. */
  lemma ShiftCompose(ls: LevelState, j: int, k: int)
    ensures Shifted(Shifted(ls, j), k) == Shifted(ls, j + k)
  {
    var twice := Shifted(Shifted(ls, j), k);
    assert twice.platforms == Shifted(ls, j + k).platforms;
    assert twice.collectibles == Shifted(ls, j + k).collectibles;
  }

  /** The value `detect_collisions` returns is the first platform, in group
      order, that the player's rectangle overlaps, and None when it overlaps none. */
  lemma {:induction false} FirstHitIsFirstOverlap(ps: seq<Entity>, r: Rect)
    ensures FirstHit(ps, r).None? <==> forall i :: 0 <= i < |ps| ==> !Overlaps(r, ps[i].rect)
    ensures FirstHit(ps, r).Some? ==>
      exists i :: 0 <= i < |ps| && ps[i] == FirstHit(ps, r).value && Overlaps(r, ps[i].rect) &&
        forall j :: 0 <= j < i ==> !Overlaps(r, ps[j].rect)
  {
    if ps != [] {
      FirstHitIsFirstOverlap(ps[1..], r);
      assert Keep(ps, HitBy(r)) == (if Overlaps(r, ps[0].rect) then [ps[0]] else []) + Keep(ps[1..], HitBy(r));
      if Overlaps(r, ps[0].rect) {
        assert FirstHit(ps, r) == Some(ps[0]);
      } else {
        assert FirstHit(ps, r) == FirstHit(ps[1..], r);
        forall i | 1 <= i < |ps|
          ensures ps[i] == ps[1..][i - 1]
        {
        }
        if FirstHit(ps, r).Some? {
          var i :| 0 <= i < |ps[1..]| && ps[1..][i] == FirstHit(ps, r).value && Overlaps(r, ps[1..][i].rect) &&
            forall j :: 0 <= j < i ==> !Overlaps(r, ps[1..][j].rect);
          assert ps[i + 1] == ps[1..][i];
          assert forall j :: 0 <= j < i + 1 ==> !Overlaps(r, ps[j].rect) by {
            forall j | 0 <= j < i + 1
              ensures !Overlaps(r, ps[j].rect)
            {
              if j > 0 { assert ps[j] == ps[1..][j - 1]; }
            }
          }
        }
      }
    }
  }

  /** Collision detection keeps the platforms, removes exactly the collectibles
      that overlap the player (the rest stay, in order), and calls back each
      overlapping platform and then each collected item, once each. */
  lemma CollisionRemovesExactlyHits(ls: LevelState, r: Rect)
    ensures Collided(ls, r).platforms == ls.platforms
    ensures forall e :: e in Collided(ls, r).collectibles <==> e in ls.collectibles && !Overlaps(r, e.rect)
    ensures multiset(Collided(ls, r).collectibles) + multiset(Keep(ls.collectibles, HitBy(r))) == multiset(ls.collectibles)
    ensures Collided(ls, r).notified == ls.notified + Keep(ls.platforms, HitBy(r)) + Keep(ls.collectibles, HitBy(r))
    ensures Collided(ls, r).worldShift == ls.worldShift
  {
    KeepPartition(ls.collectibles, MissedBy(r), HitBy(r));
  }

  /** Scrolling the world together with the player changes no collision: which
      entities are hit depends only on positions relative to the player. */
  lemma {:induction false} ShiftKeepsHits(es: seq<Entity>, r: Rect, k: int)
    ensures Keep(ShiftAll(es, k), HitBy(Translate(r, k))) == ShiftAll(Keep(es, HitBy(r)), k)
  {
    if es != [] {
      var moved := ShiftAll(es, k);
      var tail := Keep(es[1..], HitBy(r));
      ShiftKeepsHits(es[1..], r, k);
      OverlapsTranslate(r, es[0].rect, k);
      assert moved[0] == ShiftEntity(es[0], k) && moved[1..] == ShiftAll(es[1..], k);
      if Overlaps(r, es[0].rect) {
        assert Keep(es, HitBy(r)) == [es[0]] + tail;
        assert ([es[0]] + tail)[1..] == tail;
      } else {
        assert Keep(es, HitBy(r)) == tail;
      }
    }
  }

  /** A level, as the game mutates it in place. */
  class Level {
    var platforms: seq<Entity>
    var collectibles: seq<Entity>
    var worldShift: int
    var notified: seq<Entity>

    function State(): LevelState
      reads this
    {
      LevelState(platforms, collectibles, worldShift, notified)
    }

    /** `Level(player, level_spec)`: sorts every entity into its group. */
    constructor (spec: seq<Entity>)
      ensures State() == Built(spec)
    {
      var fixed, loose := [], [];
      var i := 0;
      while i < |spec|
        invariant 0 <= i <= |spec|
        invariant fixed == Keep(spec[..i], IsPlatform)
        invariant loose == Keep(spec[..i], IsCollectible)
      {
        assert spec[..i + 1] == spec[..i] + [spec[i]];
        KeepSnoc(spec[..i], spec[i], IsPlatform);
        KeepSnoc(spec[..i], spec[i], IsCollectible);
        if spec[i].isFixed {
          fixed := fixed + [spec[i]];
        } else {
          loose := loose + [spec[i]];
        }
        i := i + 1;
      }
      assert spec[..|spec|] == spec;
      platforms, collectibles := fixed, loose;
      worldShift := 0;
      notified := [];
    }

    /** `shift_world(k)`: adds k to the accumulator and to every entity's x. */
    method ShiftWorld(k: int)
      modifies this
      ensures State() == Shifted(old(State()), k)
    {
      worldShift := worldShift + k;
      var i := 0;
      while i < |platforms|
        invariant 0 <= i <= |platforms| == |old(platforms)|
        invariant forall j :: 0 <= j < i ==> platforms[j] == ShiftEntity(old(platforms)[j], k)
        invariant forall j :: i <= j < |platforms| ==> platforms[j] == old(platforms)[j]
        invariant collectibles == old(collectibles) && notified == old(notified)
        invariant worldShift == old(worldShift) + k
      {
        platforms := platforms[i := ShiftEntity(platforms[i], k)];
        i := i + 1;
      }
      i := 0;
      while i < |collectibles|
        invariant 0 <= i <= |collectibles| == |old(collectibles)|
        invariant forall j :: 0 <= j < i ==> collectibles[j] == ShiftEntity(old(collectibles)[j], k)
        invariant forall j :: i <= j < |collectibles| ==> collectibles[j] == old(collectibles)[j]
        invariant platforms == ShiftAll(old(platforms), k) && notified == old(notified)
        invariant worldShift == old(worldShift) + k
      {
        collectibles := collectibles[i := ShiftEntity(collectibles[i], k)];
        i := i + 1;
      }
      assert collectibles == ShiftAll(old(collectibles), k);
    }

    /** Runs `collision_detected` on each entity of hits, in order. */
    method Notify(hits: seq<Entity>)
      modifies this`notified
      ensures notified == old(notified) + hits
    {
      var i := 0;
      while i < |hits|
        invariant 0 <= i <= |hits|
        invariant notified == old(notified) + hits[..i]
      {
        assert hits[..i + 1] == hits[..i] + [hits[i]];
        notified := notified + [hits[i]];
        i := i + 1;
      }
      assert hits[..|hits|] == hits;
    }

    /** `detect_collisions(thing)` for the player rectangle r. */
    method DetectCollisions(r: Rect) returns (first: Option<Entity>)
      modifies this
      ensures first == FirstHit(old(platforms), r)
      ensures State() == Collided(old(State()), r)
    {
      var walls, sameWalls := SpriteCollide(r, platforms, false);
      Notify(walls);
      var caught, kept := SpriteCollide(r, collectibles, true);
      collectibles := kept;
      Notify(caught);
      first := if |walls| > 0 then Some(walls[0]) else None;
    }
  }
}
