/** Which collisions an update handles: the layers that collide, and that the pair loop misses no
    pair and makes none up. */
module PairLoop {
  import opened Common
  import opened Combat
  import opened CombatLaws
  import opened CombatRuns
  import opened Damage
  import PushOut

  /** Who collides with whom: players with enemies, enemies' shots, power-ups; players' shots with
      enemies and enemies' shots; obstacles with everything in a layer; and with friendly fire
      players with players and with their shots. */
  predicate Foes(a: Layer, b: Layer, friendlyFire: bool) {
    || {a, b} == {Player, Enemy} || {a, b} == {Player, EnemyProjectile} || {a, b} == {Player, PowerUp}
    || {a, b} == {PlayerProjectile, Enemy} || {a, b} == {PlayerProjectile, EnemyProjectile}
    || (Obstacle in {a, b} && NoLayer !in {a, b})
    || (friendlyFire && ({a, b} == {Player} || {a, b} == {Player, PlayerProjectile}))
  }

  lemma TableIsExact(a: Layer, b: Layer, friendlyFire: bool)
    ensures ShouldCollide(a, b, friendlyFire) <==> Foes(a, b, friendlyFire)
  {
    var pair := {a, b};
    assert a in pair && b in pair;
    assert forall x: Layer, y: Layer :: pair == {x, y} ==> (a == x || a == y) && (b == x || b == y);
    assert pair == {b, a};
  }

  /** Live, active, with a place and a size. */
  predicate Present(w: World, e: nat) {
    && e in w.valid && e in w.ents
    && w.ents[e].pos.Some? && w.ents[e].size.Some? && w.ents[e].collidable.Some?
    && w.ents[e].collidable.value.active
  }

  predicate BoxesOverlap(c: Entity, d: Entity)
    requires c.pos.Some? && c.size.Some? && d.pos.Some? && d.size.Some?
  {
    && c.pos.value.x < d.pos.value.x + d.size.value.w && d.pos.value.x < c.pos.value.x + c.size.value.w
    && c.pos.value.y < d.pos.value.y + d.size.value.h && d.pos.value.y < c.pos.value.y + c.size.value.h
  }

  /** The two are there, overlap, and their layers collide. */
  predicate Clash(w: World, a: nat, b: nat, friendlyFire: bool) {
    && Present(w, a) && Present(w, b) && BoxesOverlap(w.ents[a], w.ents[b])
    && Foes(w.ents[a].collidable.value.layer, w.ents[b].collidable.value.layer, friendlyFire)
  }

  lemma ClashIsCollision(w: World, a: nat, b: nat, friendlyFire: bool)
    ensures Clash(w, a, b, friendlyFire) <==> Takes(w, a) && Collide(w, a, b, friendlyFire)
  {
    TableIsExact(LayerOf(At(w, a)), LayerOf(At(w, b)), friendlyFire);
  }

  // The loop, pair by pair.

  /** The world when the outer loop comes to entity number `i` of the view. */
  function Outer(w: World, order: seq<nat>, i: nat, friendlyFire: bool, lucky: set<nat>): World
    requires i <= |order|
    decreases i
  {
    if i == 0 then w
    else
      var u := Outer(w, order, i - 1, friendlyFire, lucky);
      if Takes(u, order[i - 1]) then Against(u, order[i - 1], order[i..], friendlyFire, lucky) else u
  }

  /** The world when the loops come to the pair `i`, `j`. */
  function Reach(w: World, order: seq<nat>, i: nat, j: nat, friendlyFire: bool, lucky: set<nat>): World
    requires i < j <= |order|
  {
    var u := Outer(w, order, i, friendlyFire, lucky);
    if Takes(u, order[i]) then Against(u, order[i], order[i + 1..j], friendlyFire, lucky) else u
  }

  lemma {:induction false} OuterIsPrefix(w: World, order: seq<nat>, i: nat, friendlyFire: bool, lucky: set<nat>)
    requires i <= |order|
    ensures Collided(w, order, friendlyFire, lucky) ==
      Collided(Outer(w, order, i, friendlyFire, lucky), order[i..], friendlyFire, lucky)
    decreases i
  {
    if i == 0 {
      assert order[0..] == order;
    } else {
      OuterIsPrefix(w, order, i - 1, friendlyFire, lucky);
      assert order[i - 1..][0] == order[i - 1] && order[i - 1..][1..] == order[i..];
    }
  }

  lemma {:induction false} AgainstSplits(w: World, a: nat, x: seq<nat>, y: seq<nat>, friendlyFire: bool,
                                         lucky: set<nat>)
    ensures Against(w, a, x + y, friendlyFire, lucky) ==
      Against(Against(w, a, x, friendlyFire, lucky), a, y, friendlyFire, lucky)
    decreases |x|
  {
    if x == [] {
      assert x + y == y;
    } else if a in w.valid {
      assert (x + y)[0] == x[0] && (x + y)[1..] == x[1..] + y;
      AgainstSplits(Meet(w, a, x[0], friendlyFire, lucky), a, x[1..], y, friendlyFire, lucky);
    }
  }

  // Collisions are only ever added.

  predicate Extends(w: World, v: World) {
    |w.hits| <= |v.hits| && v.hits[..|w.hits|] == w.hits
  }

  lemma ExtendsTrans(u: World, v: World, w: World)
    requires Extends(u, v) && Extends(v, w)
    ensures Extends(u, w)
  {
    assert w.hits[..|u.hits|] == w.hits[..|v.hits|][..|u.hits|];
  }

  lemma {:induction false} AgainstExtends(w: World, a: nat, rest: seq<nat>, friendlyFire: bool, lucky: set<nat>)
    ensures Extends(w, Against(w, a, rest, friendlyFire, lucky))
    decreases |rest|
  {
    if rest != [] && a in w.valid {
      var v := Meet(w, a, rest[0], friendlyFire, lucky);
      assert Extends(w, v);
      AgainstExtends(v, a, rest[1..], friendlyFire, lucky);
      ExtendsTrans(w, v, Against(v, a, rest[1..], friendlyFire, lucky));
    }
  }

  lemma {:induction false} CollidedExtends(w: World, order: seq<nat>, friendlyFire: bool, lucky: set<nat>)
    ensures Extends(w, Collided(w, order, friendlyFire, lucky))
    decreases |order|
  {
    if order != [] {
      var v := if Takes(w, order[0]) then Against(w, order[0], order[1..], friendlyFire, lucky) else w;
      AgainstExtends(w, order[0], order[1..], friendlyFire, lucky);
      CollidedExtends(v, order[1..], friendlyFire, lucky);
      ExtendsTrans(w, v, Collided(v, order[1..], friendlyFire, lucky));
    }
  }

  // No pair is missed.

  lemma {:induction false} OuterKeeps(w: World, order: seq<nat>, i: nat, friendlyFire: bool, lucky: set<nat>)
    requires Inv(w) && Distinct(order) && i <= |order|
    ensures Inv(Outer(w, order, i, friendlyFire, lucky))
    decreases i
  {
    if i > 0 {
      OuterKeeps(w, order, i - 1, friendlyFire, lucky);
      var u := Outer(w, order, i - 1, friendlyFire, lucky);
      if Takes(u, order[i - 1]) {
        AgainstKeeps(u, order[i - 1], order[i..], friendlyFire, lucky);
      }
    }
  }

  /** Whoever is there when its pair comes was there when its turn in the outer loop came. */
  lemma ReachKeeps(w: World, order: seq<nat>, i: nat, j: nat, friendlyFire: bool, lucky: set<nat>)
    requires Inv(w) && Distinct(order) && i < j <= |order|
    ensures var o, u := Outer(w, order, i, friendlyFire, lucky), Reach(w, order, i, j, friendlyFire, lucky);
      && Inv(u) && (Takes(u, order[i]) && order[i] < w.next ==> Takes(o, order[i]))
  {
    var o := Outer(w, order, i, friendlyFire, lucky);
    OuterKeeps(w, order, i, friendlyFire, lucky);
    OuterLater(w, order, i, friendlyFire, lucky);
    if Takes(o, order[i]) {
      AgainstKeeps(o, order[i], order[i + 1..j], friendlyFire, lucky);
    }
  }

  lemma {:induction false} OuterLater(w: World, order: seq<nat>, i: nat, friendlyFire: bool, lucky: set<nat>)
    requires Inv(w) && Distinct(order) && i <= |order|
    ensures Later(w, Outer(w, order, i, friendlyFire, lucky))
    decreases i
  {
    LaterSame(w);
    if i > 0 {
      var u := Outer(w, order, i - 1, friendlyFire, lucky);
      OuterLater(w, order, i - 1, friendlyFire, lucky);
      OuterKeeps(w, order, i - 1, friendlyFire, lucky);
      if Takes(u, order[i - 1]) {
        AgainstKeeps(u, order[i - 1], order[i..], friendlyFire, lucky);
        LaterTrans(w, u, Against(u, order[i - 1], order[i..], friendlyFire, lucky));
      }
    }
  }

  /** From the world of a pair to the next one of its row. */
  lemma ReachNext(w: World, order: seq<nat>, i: nat, j: nat, friendlyFire: bool, lucky: set<nat>)
    requires i < j < |order| && Takes(Outer(w, order, i, friendlyFire, lucky), order[i])
    ensures var u, v := Reach(w, order, i, j, friendlyFire, lucky), Reach(w, order, i, j + 1, friendlyFire, lucky);
      v == if order[i] in u.valid then Meet(u, order[i], order[j], friendlyFire, lucky) else u
  {
    var o := Outer(w, order, i, friendlyFire, lucky);
    assert order[i + 1..j + 1] == order[i + 1..j] + [order[j]];
    AgainstSplits(o, order[i], order[i + 1..j], [order[j]], friendlyFire, lucky);
  }

  lemma EndExtendsReach(w: World, order: seq<nat>, i: nat, j: nat, friendlyFire: bool, lucky: set<nat>)
    requires i < j <= |order| && Takes(Outer(w, order, i, friendlyFire, lucky), order[i])
    ensures Extends(Reach(w, order, i, j, friendlyFire, lucky), Collided(w, order, friendlyFire, lucky))
  {
    var o, u := Outer(w, order, i, friendlyFire, lucky), Reach(w, order, i, j, friendlyFire, lucky);
    var v := Outer(w, order, i + 1, friendlyFire, lucky);
    assert order[i + 1..] == order[i + 1..j] + order[j..];
    AgainstSplits(o, order[i], order[i + 1..j], order[j..], friendlyFire, lucky);
    AgainstExtends(u, order[i], order[j..], friendlyFire, lucky);
    OuterIsPrefix(w, order, i + 1, friendlyFire, lucky);
    CollidedExtends(v, order[i + 1..], friendlyFire, lucky);
    ExtendsTrans(u, v, Collided(w, order, friendlyFire, lucky));
  }

  /** The collision recorded for the pair. */
  predicate RecordedAt(v: World, k: nat, a: nat, b: nat) {
    k < |v.hits| && v.hits[k].first.id == a && v.hits[k].second.id == b
  }

  /** The pair loop misses nothing: of each two entities of the view, if both are there and overlap
      when their pair comes, and their layers collide, a collision of these two is recorded. */
  lemma EveryClashIsRecorded(w: World, order: seq<nat>, i: nat, j: nat, friendlyFire: bool, lucky: set<nat>)
    requires Inv(w) && IsView(w, order) && i < j < |order|
    requires Clash(Reach(w, order, i, j, friendlyFire, lucky), order[i], order[j], friendlyFire)
    ensures var u := Reach(w, order, i, j, friendlyFire, lucky);
      RecordedAt(Collided(w, order, friendlyFire, lucky), |u.hits|, order[i], order[j])
  {
    var u := Reach(w, order, i, j, friendlyFire, lucky);
    var v := Reach(w, order, i, j + 1, friendlyFire, lucky);
    var end := Collided(w, order, friendlyFire, lucky);
    ReachKeeps(w, order, i, j, friendlyFire, lucky);
    ClashIsCollision(u, order[i], order[j], friendlyFire);
    ReachNext(w, order, i, j, friendlyFire, lucky);
    EndExtendsReach(w, order, i, j + 1, friendlyFire, lucky);
    assert end.hits[|u.hits|] == end.hits[..|v.hits|][|u.hits|];
  }

  // No collision is made up.

  lemma {:induction false} AgainstRecords(w: World, a: nat, rest: seq<nat>, friendlyFire: bool, lucky: set<nat>, k: nat)
    returns (m: nat)
    requires Inv(w) && Takes(w, a) && a !in rest && |w.hits| <= k < |Against(w, a, rest, friendlyFire, lucky).hits|
    ensures m < |rest|
    ensures var u := Against(w, a, rest[..m], friendlyFire, lucky);
      |u.hits| == k && Clash(u, a, rest[m], friendlyFire)
    decreases |rest|
  {
    var v := Meet(w, a, rest[0], friendlyFire, lucky);
    MeetKeeps(w, a, rest[0], friendlyFire, lucky);
    if |v.hits| > k {
      m := 0;
      ClashIsCollision(w, a, rest[0], friendlyFire);
      assert rest[..0] == [];
    } else {
      assert a in v.valid;
      var n := AgainstRecords(v, a, rest[1..], friendlyFire, lucky, k);
      m := n + 1;
      assert rest[..m][0] == rest[0] && rest[..m][1..] == rest[1..][..n];
    }
  }

  /** And it makes nothing up: each collision recorded by the update is of two entities of the view
      that were there and overlapped when their pair came, in layers that collide. */
  lemma {:induction false} EveryRecordIsAClash(w: World, order: seq<nat>, friendlyFire: bool, lucky: set<nat>, k: nat)
    returns (i: nat, j: nat)
    requires Inv(w) && IsView(w, order) && |w.hits| <= k < |Collided(w, order, friendlyFire, lucky).hits|
    ensures i < j < |order|
    ensures var u := Reach(w, order, i, j, friendlyFire, lucky);
      && |u.hits| == k && Clash(u, order[i], order[j], friendlyFire)
      && RecordedAt(Collided(w, order, friendlyFire, lucky), k, order[i], order[j])
  {
    OuterIsPrefix(w, order, |order|, friendlyFire, lucky);
    assert order[|order|..] == [];
    i := RowOf(w, order, |order|, friendlyFire, lucky, k);
    var o := Outer(w, order, i, friendlyFire, lucky);
    OuterKeeps(w, order, i, friendlyFire, lucky);
    var m := AgainstRecords(o, order[i], order[i + 1..], friendlyFire, lucky, k);
    j := i + 1 + m;
    assert order[i + 1..][..m] == order[i + 1..j] && order[i + 1..][m] == order[j];
    EveryClashIsRecorded(w, order, i, j, friendlyFire, lucky);
  }

  /** The row of the outer loop in which collision number `k` is recorded. */
  lemma {:induction false} RowOf(w: World, order: seq<nat>, n: nat, friendlyFire: bool, lucky: set<nat>, k: nat)
    returns (i: nat)
    requires n <= |order| && |w.hits| <= k < |Outer(w, order, n, friendlyFire, lucky).hits|
    ensures i < |order| && Takes(Outer(w, order, i, friendlyFire, lucky), order[i])
    ensures |Outer(w, order, i, friendlyFire, lucky).hits| <= k
    ensures k < |Against(Outer(w, order, i, friendlyFire, lucky), order[i], order[i + 1..], friendlyFire, lucky).hits|
    decreases n
  {
    var u := Outer(w, order, n - 1, friendlyFire, lucky);
    if |u.hits| <= k {
      i := n - 1;
    } else {
      OuterIsPrefix(w, order, |order|, friendlyFire, lucky);
    assert order[|order|..] == [];
    i := RowOf(w, order, n - 1, friendlyFire, lucky, k);
    }
  }

  // What a shot that hits does.

  /** A player's projectile and an enemy that clash when their pair comes: before the next pair the
      enemy has 25 hit points less, and is destroyed exactly if it had no more than 25. */
  lemma ShotsHit(w: World, order: seq<nat>, i: nat, j: nat, friendlyFire: bool, lucky: set<nat>)
    requires Inv(w) && IsView(w, order) && i < j < |order|
    requires Clash(Reach(w, order, i, j, friendlyFire, lucky), order[i], order[j], friendlyFire)
    requires var u := Reach(w, order, i, j, friendlyFire, lucky);
      {LayerOf(u.ents[order[i]]), LayerOf(u.ents[order[j]])} == {PlayerProjectile, Enemy}
    ensures var u, v := Reach(w, order, i, j, friendlyFire, lucky), Reach(w, order, i, j + 1, friendlyFire, lucky);
      var e := if On(u.ents[order[i]], Enemy) then order[i] else order[j];
      u.ents[e].health.Some? ==>
        var h := u.ents[e].health.value;
        && (e in v.valid <==> h.hp > 25)
        && (e in v.valid ==> e in v.ents && v.ents[e].health == Some(Health(h.hp - 25, h.maxHp)))
  {
    var u := Reach(w, order, i, j, friendlyFire, lucky);
    var a, b := order[i], order[j];
    ReachKeeps(w, order, i, j, friendlyFire, lucky);
    ClashIsCollision(u, a, b, friendlyFire);
    ReachNext(w, order, i, j, friendlyFire, lucky);
    MeetKeeps(u, a, b, friendlyFire, lucky);
    ShotBetween(u, a, b, lucky);
  }

  lemma ShotBetween(u: World, a: nat, b: nat, lucky: set<nat>)
    requires Ids(u) && Takes(u, a) && Takes(u, b) && a in u.ents && b in u.ents && a != b
    requires {LayerOf(u.ents[a]), LayerOf(u.ents[b])} == {PlayerProjectile, Enemy}
    ensures var v := Handled(u, a, b, LayerOf(u.ents[a]), LayerOf(u.ents[b]), lucky);
      var e := if On(u.ents[a], Enemy) then a else b;
      u.ents[e].health.Some? ==>
        var h := u.ents[e].health.value;
        && (e in v.valid <==> h.hp > 25)
        && (e in v.valid ==> e in v.ents && v.ents[e].health == Some(Health(h.hp - 25, h.maxHp)))
  {
    var pair := {LayerOf(u.ents[a]), LayerOf(u.ents[b])};
    assert PlayerProjectile in pair && Enemy in pair;
    var s, e := if On(u.ents[a], Enemy) then b else a, if On(u.ents[a], Enemy) then a else b;
    if u.ents[e].health.Some? {
      ShotTakes(u, s, e, lucky);
      ShotSpares(u, s, e, lucky, {s, e});
    }
  }
}
