/** What each kind of collision and each life step comes to, told in the members of the entities
    and without the functions that compute it. */
module Outcomes {
  import opened Common
  import opened Combat
  import opened CombatLaws
  import opened Damage
  import PushOut
  import SpawnSystem
  import Text

  /** The word "charge" stands somewhere in the tag. */
  ghost predicate HasCharge(c: Entity) {
    c.tag.Some? && exists i: nat :: Text.StandsAt(c.tag.value, "charge", i)
  }

  lemma ChargedIff(c: Entity)
    ensures Charged(c) <==> HasCharge(c)
  {
    if c.tag.Some? {
      Text.ContainsIff(c.tag.value, "charge");
    }
  }

  ghost predicate Colliding(w: World, a: nat, b: nat, friendlyFire: bool) {
    && Ids(w) && Takes(w, a) && Takes(w, b) && a in w.ents && b in w.ents && a != b
    && ShouldCollide(LayerOf(w.ents[a]), LayerOf(w.ents[b]), friendlyFire)
  }

  function After(w: World, a: nat, b: nat, lucky: set<nat>): World
    requires a in w.ents && b in w.ents
  {
    Handled(w, a, b, LayerOf(w.ents[a]), LayerOf(w.ents[b]), lucky)
  }

  // Who survives.

  /** A player's projectile survives exactly a charged hit on an enemy or on an enemy's projectile;
      an enemy's projectile and a power-up exactly obstacles; an enemy exactly all but a shot for
      which it has no more than 25 hit points; obstacles and companions everything. */
  lemma WhoSurvives(w: World, a: nat, b: nat, friendlyFire: bool, lucky: set<nat>)
    requires Colliding(w, a, b, friendlyFire)
    ensures var v, c, q := After(w, a, b, lucky), w.ents[a], LayerOf(w.ents[b]);
      match LayerOf(c)
      case PlayerProjectile => a in v.valid <==> HasCharge(c) && (q == Enemy || q == EnemyProjectile)
      case EnemyProjectile => a in v.valid <==> q == Obstacle
      case PowerUp => a in v.valid <==> q == Obstacle
      case Enemy => a in v.valid <==> !(q == PlayerProjectile && c.health.Some? && c.health.value.hp <= 25)
      case Player => true
      case _ => a in v.valid
  {
    var c, la, q := w.ents[a], LayerOf(w.ents[a]), LayerOf(w.ents[b]);
    ChargedIff(c);
    HandledSymmetric(w, a, b, la, q, lucky);
    if la == PlayerProjectile && q == Enemy {
      ShotLeaves(w, a, b, lucky);
    } else if la == Enemy && q == PlayerProjectile {
      if c.health.Some? {
        ShotTakes(w, b, a, lucky);
      }
    } else if la == Enemy {
      EnemyUnharmed(w, a, b, friendlyFire, lucky);
    }
  }

  lemma ShotLeaves(w: World, s: nat, e: nat, lucky: set<nat>)
    requires Ids(w) && s in w.valid && s in w.ents && e in w.ents && s != e && On(w.ents[s], PlayerProjectile)
    ensures s in Shot(w, s, e, lucky).valid <==> Charged(w.ents[s])
  {
    var v := Spent(w, s);
    StruckLeaves(v, e, Scorer(w.ents[s]), lucky, s);
  }

  /** Striking an enemy destroys no one else. */
  lemma StruckLeaves(w: World, e: nat, scorer: nat, lucky: set<nat>, d: nat)
    requires Ids(w) && e in w.ents && d != e && d < w.next
    ensures d in Struck(w, e, scorer, lucky).valid <==> d in w.valid
  {
    var h := At(w, e).health;
    if h.None? {
      return;
    }
    var hp := h.value.hp - 25;
    if hp <= 0 {
      assert Struck(w, e, scorer, lucky) == Slain(SetHp(w, e, hp), e, scorer, lucky);
      SlainLeaves(SetHp(w, e, hp), e, scorer, lucky, d);
    }
  }

  lemma SlainLeaves(w: World, e: nat, scorer: nat, lucky: set<nat>, d: nat)
    requires Ids(w) && d != e && d < w.next
    ensures d in Slain(w, e, scorer, lucky).valid <==> d in w.valid
  {
    var w1 := ClearStage(w, e);
    assert d in w1.valid <==> d in w.valid;
    var w2 := Reward(w1, scorer, IsBoss(At(w, e)));
    var w3 := if IsBoss(At(w, e)) then w2 else Drop(w2, e, scorer, lucky);
    assert w1.next <= w3.next;
    assert d in w3.valid <==> d in w.valid;
  }

  // What a kill brings.

  predicate FirstBoss(c: Entity) { c.tag == Some("Boss_1") }
  predicate SecondBoss(c: Entity) { c.tag == Some("Boss_2") }

  /** A death of Boss_1, and no other, takes the schedule to the next level's start; a boss leaves a
      notice for its stage, 1 or 2. */
  lemma StageOfKill(w: World, e: nat, scorer: nat, lucky: set<nat>)
    requires Ids(w) && e in w.ents
    ensures var v, c := Slain(w, e, scorer, lucky), w.ents[e];
      && v.spawner == (if FirstBoss(c) then SpawnSystem.Spawner(w.spawner.level + 1, 0, 0, 0.0, false, 0.0)
                       else w.spawner)
      && (FirstBoss(c) || SecondBoss(c) ==>
            w.next in v.valid && At(v, w.next) == BLANK.(stage := Some(if FirstBoss(c) then 1 else 2)))
      && (!FirstBoss(c) && !SecondBoss(c) ==> forall d: nat :: d >= w.next ==> At(v, d).stage.None?)
  {
    var w1 := ClearStage(w, e);
    var boss := IsBoss(At(w, e));
    var w2 := Reward(w1, scorer, boss);
    assert scorer in w1.valid ==> scorer < w1.next;
    if boss {
      assert At(w1, w.next) == StageNotice(if FirstBoss(w.ents[e]) then 1 else 2);
      assert scorer == w.next ==> !At(w1, scorer).score;
      assert At(w2, w.next) == At(w1, w.next);
    }
  }

  /** The score of a kill goes to the scorer if it is named, live and keeps a score: 1000 for a
      boss, 100 for any other; and no one else's changes. */
  lemma ScoreOfKill(w: World, e: nat, scorer: nat, lucky: set<nat>, d: nat)
    requires Ids(w) && e in w.ents && d in w.ents
    ensures var v, c := Slain(w, e, scorer, lucky), w.ents[e];
      && d in v.ents
      && v.ents[d].scoreEvent ==
           if d == scorer && scorer != 0 && scorer in w.valid && w.ents[scorer].score then
             Some(if FirstBoss(c) || SecondBoss(c) then 1000 else 100)
           else w.ents[d].scoreEvent
  {
    var w1 := ClearStage(w, e);
    assert At(w1, d) == At(w, d) && (d in w1.valid <==> d in w.valid);
  }

  /** A force pod is left behind exactly by a lucky enemy with a place that is no boss, if the scorer
      has none or is not named, or owns fewer than two pods; it lies where the enemy was. */
  lemma DropOfKill(w: World, e: nat, scorer: nat, lucky: set<nat>)
    requires Ids(w) && e in w.ents && !FirstBoss(w.ents[e]) && !SecondBoss(w.ents[e])
    ensures var v, c := Slain(w, e, scorer, lucky), w.ents[e];
      if c.pos.Some? && e in lucky && (scorer == 0 || |PodsOf(w, scorer)| < 2) then
        && v.next == w.next + 2 && w.next in v.valid
        && At(v, w.next).pos == c.pos && At(v, w.next).size == Some(Size(64.0, 64.0))
        && At(v, w.next).vel == Some(Point(-50.0, 0.0))
        && At(v, w.next).collidable == Some(Collidable(PowerUp, true)) && At(v, w.next).powerUp == Some(ForcePod)
        && At(v, w.next).tag == Some("ForcePodItem")
      else v.next == w.next + 1 && At(v, w.next) == BLANK
  {
    var w2 := Reward(w, scorer, false);
    assert ClearStage(w, e) == w;
    assert At(w2, e).pos == w.ents[e].pos;
    PodsAfterReward(w, scorer);
  }

  lemma PodsAfterReward(w: World, scorer: nat)
    requires Ids(w)
    ensures PodsOf(Reward(w, scorer, false), scorer) == PodsOf(w, scorer)
  {
  }

  /** A shot that kills: the death of the enemy, credited to the owner of the projectile. */
  lemma ShotKills(w: World, s: nat, e: nat, lucky: set<nat>)
    requires Ids(w) && e in w.ents && s in w.ents && s != e
    requires w.ents[e].health.Some? && w.ents[e].health.value.hp <= 25
    ensures var u := (if HasCharge(w.ents[s]) then w else w.(valid := w.valid - {s}));
      var c := w.ents[e];
      var u' := u.(ents := w.ents[e := c.(health := Some(Health(c.health.value.hp - 25, c.health.value.maxHp)))]);
      Shot(w, s, e, lucky) == Slain(u', e, if w.ents[s].owner.Some? then w.ents[s].owner.value else 0, lucky)
  {
    ChargedIff(w.ents[s]);
  }

  // Power-ups.

  /** A player with fewer than two pods gets one more from a force pod: above the player the first,
      below it the second; a player with two gets none. */
  lemma PodGained(w: World, p: nat, u: nat, lucky: set<nat>)
    requires Ids(w) && p in w.ents && u in w.ents && p != u && w.ents[u].powerUp == Some(ForcePod)
    requires w.ents[p].pos.Some? && w.ents[u].tag != Some("ForcePod")
    ensures var v, n, at := Handled(w, p, u, Player, PowerUp, lucky), |PodsOf(w, p)|, w.ents[p].pos.value;
      && u !in v.valid
      && PodsOf(v, p) == PodsOf(w, p) + (if n < 2 then {w.next} else {})
      && (n < 2 ==>
            && w.next in v.ents
            && v.ents[w.next].pos == Some(Point(at.x, at.y + if n == 0 then -50.0 else 100.0))
            && v.ents[w.next].size == Some(Size(64.0, 64.0)) && v.ents[w.next].vel == Some(Point(0.0, 0.0))
            && v.ents[w.next].collidable == Some(Collidable(Companion, true)))
  {
    var w1 := WithPod(w, p);
    PodTaken(w, p, u, lucky);
    PodCreated(w, p);
    assert At(w1, u) == w.ents[u];
    NoPodLost(w1, {u}, p);
  }

  lemma PodTaken(w: World, p: nat, u: nat, lucky: set<nat>)
    requires At(w, u).powerUp == Some(ForcePod)
    ensures Handled(w, p, u, Player, PowerUp, lucky) == WithPod(w, p).(valid := WithPod(w, p).valid - {u})
  {
  }

  /** Destroying what is no pod takes no pod away. */
  lemma NoPodLost(w: World, gone: set<nat>, p: nat)
    requires forall e :: e in gone ==> At(w, e).tag != Some("ForcePod")
    ensures PodsOf(w.(valid := w.valid - gone), p) == PodsOf(w, p)
  {
  }

  lemma PodCreated(w: World, p: nat)
    requires Ids(w) && p in w.ents
    ensures var v, n := WithPod(w, p), |PodsOf(w, p)|;
      && PodsOf(v, p) == PodsOf(w, p) + (if n < 2 then {w.next} else {})
      && (n < 2 ==> w.next in v.ents && v.ents[w.next] == Pod(w.ents[p].pos, p, n == 0))
      && (forall d: nat :: d < w.next ==> At(v, d) == At(w, d))
  {
    var w1, n := Create(w, BLANK), |PodsOf(w, p)|;
    NewBlankIsNoPod(w, p);
    if n < 2 {
      var c := Pod(w.ents[p].pos, p, n == 0);
      OnePodMore(w1, w.next, p, c);
      NoPodLost(Put(w1, w.next, c), Items(Put(w1, w.next, c)), p);
    }
  }

  lemma NewBlankIsNoPod(w: World, p: nat)
    requires Ids(w)
    ensures PodsOf(Create(w, BLANK), p) == PodsOf(w, p)
  {
    assert forall d: nat :: d < w.next ==> At(Create(w, BLANK), d) == At(w, d);
  }

  lemma OnePodMore(w: World, e: nat, p: nat, c: Entity)
    requires e in w.valid && At(w, e) == BLANK && c.tag == Some("ForcePod") && c.parent == Some(p)
    ensures PodsOf(Put(w, e, c), p) == PodsOf(w, p) + {e}
  {
    assert forall d: nat :: d != e ==> At(Put(w, e, c), d) == At(w, d);
  }

  /** With the second pod, and only then, all force pods lying about disappear. */
  lemma ItemsAfterPod(w: World, p: nat, u: nat, lucky: set<nat>, d: nat)
    requires Ids(w) && p in w.ents && u in w.ents && p != u && w.ents[u].powerUp == Some(ForcePod) && d in w.ents
    ensures var v := Handled(w, p, u, Player, PowerUp, lucky);
      d in v.valid <==>
        d in w.valid && d != u && !(|PodsOf(w, p)| == 1 && w.ents[d].tag == Some("ForcePodItem"))
  {
    var w1 := Create(w, BLANK);
    NewBlankIsNoPod(w, p);
    assert forall c: nat :: c < w.next ==> At(w1, c) == At(w, c);
  }

  // Obstacles.

  /** A player is pushed by an overlapping obstacle along the axis of the smaller overlap, by just
      that overlap, away from it; the obstacle stays; and they then no longer overlap exactly if
      neither interval reached past the other on the side pushed from. */
  lemma ObstacleStops(w: World, p: nat, o: nat, lucky: set<nat>)
    requires p in w.ents && o in w.ents && p != o && Solid(w.ents[p]) && Solid(w.ents[o])
    requires PushOut.Solid(BoxOf(w.ents[p])) && PushOut.Solid(BoxOf(w.ents[o]))
    requires PushOut.Overlaps(BoxOf(w.ents[p]), BoxOf(w.ents[o]))
    ensures var v, b, c := Handled(w, p, o, Player, Obstacle, lucky), BoxOf(w.ents[p]), BoxOf(w.ents[o]);
      var dx := PushOut.Min(b.x + b.w, c.x + c.w) - PushOut.Max(b.x, c.x);
      var dy := PushOut.Min(b.y + b.h, c.y + c.h) - PushOut.Max(b.y, c.y);
      && p in v.ents && Solid(v.ents[p]) && v.ents[p] == w.ents[p].(pos := v.ents[p].pos)
      && (forall d :: d in w.ents && d != p ==> d in v.ents && v.ents[d] == w.ents[d])
      && v.valid == w.valid && dx > 0.0 && dy > 0.0
      && var b' := BoxOf(v.ents[p]);
      && (if dx < dy then b'.y == b.y && b'.x == (if b.x < c.x then b.x - dx else b.x + dx)
          else b'.x == b.x && b'.y == (if b.y < c.y then b.y - dy else b.y + dy))
      && (!PushOut.Overlaps(b', c) <==>
            if dx < dy then (if b.x < c.x then b.x + b.w <= c.x + c.w else b.x + b.w >= c.x + c.w)
            else (if b.y < c.y then b.y + b.h <= c.y + c.h else b.y + b.h >= c.y + c.h))
  {
    PushOut.SinglePushSeparates(BoxOf(w.ents[p]), BoxOf(w.ents[o]));
  }

  // Lives.

  predicate OutOfHitPoints(c: Entity) {
    c.health.Some? && c.lives.Some? && c.pos.Some? && c.health.value.hp <= 0
  }

  /** A life step on one live entity. Out of hit points with its last life, it is destroyed; with
      more, it has one less, full hit points, no speed, and is out of play for two seconds, of which
      this step's time has passed already. A shield otherwise runs on, and the entity is back in
      play when it is over. Anything else stays as it is. */
  lemma LifeStep(w: World, dt: real, e: nat)
    requires e in w.ents && e in w.valid && dt >= 0.0
    ensures var v, c := Lived(w, dt), w.ents[e];
      && e in v.ents
      && (e in v.valid <==> !(OutOfHitPoints(c) && c.lives.value <= 1))
      && var d := v.ents[e];
      && (OutOfHitPoints(c) && c.lives.value > 1 ==>
            && d.lives == Some(c.lives.value - 1)
            && d.health == Some(Health(c.health.value.maxHp, c.health.value.maxHp))
            && d.vel == (if c.vel.Some? then Some(Point(0.0, 0.0)) else None)
            && d.shield == (if dt < 2.0 then Some(2.0 - dt) else None)
            && (c.collidable.Some? ==> d.collidable == Some(Collidable(c.collidable.value.layer, dt >= 2.0)))
            && d == c.(lives := d.lives, health := d.health, vel := d.vel, shield := d.shield,
                       collidable := d.collidable))
      && (!OutOfHitPoints(c) && c.shield.None? ==> d == c)
      && (!OutOfHitPoints(c) && c.shield.Some? && c.shield.value > dt ==>
            d == c.(shield := Some(c.shield.value - dt)))
      && (!OutOfHitPoints(c) && c.shield.Some? && c.shield.value <= dt && c.collidable.Some? ==>
            d == c.(shield := None, collidable := Some(Collidable(c.collidable.value.layer, true))))
  {
  }

  /** And it touches no one that is dead, and nothing else of the world. */
  lemma LifeStepSparesTheDead(w: World, dt: real)
    ensures var v := Lived(w, dt);
      && v.valid <= w.valid && v.ents.Keys == w.ents.Keys && v.next == w.next && v.spawner == w.spawner
      && v.hits == w.hits
      && forall e :: e in w.ents && e !in w.valid ==> v.ents[e] == w.ents[e]
  {
  }
}
