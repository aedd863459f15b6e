/** Level entities and the ordered sprite groups that hold them: filtering a
    group while keeping its order, and `spritecollide` against one rectangle. */
module Sprites {
  import opened Geometry

  datatype Option<T> = None | Some(value: T)

  /** A platform (`is_fixed`) or a collectible, reduced to its rectangle and its flag. */
  datatype Entity = Entity(rect: Rect, isFixed: bool)

  /** The members of s that satisfy p, in their order in s. */
  function Keep<T(==,!new)>(s: seq<T>, p: T -> bool): (r: seq<T>)
    ensures |r| <= |s|
    ensures forall x :: x in r <==> x in s && p(x)
  {
    if s == [] then []
    else
      assert s == [s[0]] + s[1..];
      (if p(s[0]) then [s[0]] else []) + Keep(s[1..], p)
  }

  /** Filtering distributes over concatenation, so it keeps the group's order. */
  lemma {:induction false} KeepAppend<T(!new)>(a: seq<T>, b: seq<T>, p: T -> bool)
    ensures Keep(a + b, p) == Keep(a, p) + Keep(b, p)
  {
    if a == [] {
      assert a + b == b;
    } else {
      assert (a + b)[0] == a[0];
      assert (a + b)[1..] == a[1..] + b;
      KeepAppend(a[1..], b, p);
    }
  }

  /** Filtering a group that grows by one member. */
  lemma KeepSnoc<T(!new)>(s: seq<T>, x: T, p: T -> bool)
    ensures Keep(s + [x], p) == Keep(s, p) + (if p(x) then [x] else [])
  {
    KeepAppend(s, [x], p);
    assert [x][1..] == [];
  }

  /** Two complementary filters split a group: each member goes to exactly one side. */
  lemma {:induction false} KeepPartition<T(!new)>(s: seq<T>, p: T -> bool, q: T -> bool)
    requires forall x :: q(x) == !p(x)
    ensures multiset(Keep(s, p)) + multiset(Keep(s, q)) == multiset(s)
  {
    if s != [] {
      var x, rest := s[0], s[1..];
      KeepPartition(rest, p, q);
      assert s == [x] + rest;
      assert multiset(s) == multiset{x} + multiset(rest);
      if p(x) {
        assert Keep(s, p) == [x] + Keep(rest, p) && Keep(s, q) == Keep(rest, q);
      } else {
        assert Keep(s, p) == Keep(rest, p) && Keep(s, q) == [x] + Keep(rest, q);
      }
    }
  }

  /** The entities whose rectangle overlaps r (the sprite's rectangle first, as colliderect takes it). */
  function HitBy(r: Rect): Entity -> bool
  {
    (e: Entity) => Overlaps(r, e.rect)
  }

  /** The entities whose rectangle does not overlap r. */
  function MissedBy(r: Rect): Entity -> bool
  {
    (e: Entity) => !Overlaps(r, e.rect)
  }

  /** `pygame.sprite.spritecollide(sprite, group, dokill)` for a sprite with
      rectangle r: the colliding members in group order, and the group as it is
      afterwards (the colliding members killed when dokill is set). */
  method SpriteCollide(r: Rect, group: seq<Entity>, dokill: bool) returns (hits: seq<Entity>, after: seq<Entity>)
    ensures hits == Keep(group, HitBy(r))
    ensures after == if dokill then Keep(group, MissedBy(r)) else group
  {
    hits := [];
    var survivors := [];
    var i := 0;
    while i < |group|
      invariant 0 <= i <= |group|
      invariant hits == Keep(group[..i], HitBy(r))
      invariant survivors == Keep(group[..i], MissedBy(r))
    {
      var e := group[i];
      assert group[..i + 1] == group[..i] + [e];
      KeepSnoc(group[..i], e, HitBy(r));
      KeepSnoc(group[..i], e, MissedBy(r));
      assert HitBy(r)(e) == Overlaps(r, e.rect) && MissedBy(r)(e) == !Overlaps(r, e.rect);
      if Overlaps(r, e.rect) {
        hits := hits + [e];
      } else {
        survivors := survivors + [e];
      }
      i := i + 1;
    }
    assert group[..|group|] == group;
    after := if dokill then survivors else group;
  }
}
