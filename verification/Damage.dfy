/** Where hit points go. An enemy loses 25 for each collision with a player's projectile and
    nothing otherwise, so a shot destroys it exactly when the shots so far make up its maximum;
    a player loses what the other's layer says, as long as it has any. */
module Damage {
  import opened Common
  import opened Combat
  import opened CombatLaws
  import opened CombatRuns

  const SHOT_DAMAGE := 25

  /** The collision was of enemy `e` with a player's projectile. */
  predicate IsShot(h: Hit, e: nat) {
    Between(h, e, Enemy, PlayerProjectile, false)
  }

  function ShotsOn(hits: seq<Hit>, e: nat): nat
    decreases |hits|
  {
    if hits == [] then 0
    else ShotsOn(hits[..|hits| - 1], e) + if IsShot(hits[|hits| - 1], e) then 1 else 0
  }

  // Whom a collision leaves alone.

  /** Only entities in `x` may change their hit points, and only they and force pods lying about
      may go. */
  ghost predicate Spares(w: World, v: World, x: set<nat>) {
    && Ids(v)
    && (forall e: nat :: e !in x ==> At(v, e).health == At(w, e).health)
    && (forall e: nat :: e in w.ents ==> e in v.ents && At(v, e).tag == At(w, e).tag)
    && (forall e: nat :: e !in x && e in w.valid && At(w, e).tag != Some("ForcePodItem") ==> e in v.valid)
  }

  lemma SparesTrans(u: World, v: World, w: World, x: set<nat>)
    requires Ids(u) && Spares(u, v, x) && Spares(v, w, x)
    ensures Spares(u, w, x)
  {
  }

  lemma SparesSame(w: World, x: set<nat>)
    requires Ids(w)
    ensures Spares(w, w, x)
  {
  }

  lemma CreateSpares(w: World, c: Entity, x: set<nat>)
    requires Ids(w) && c.health.None?
    ensures Spares(w, Create(w, c), x)
  {
  }

  lemma DestroySpares(w: World, e: nat, x: set<nat>)
    requires Ids(w) && e in x
    ensures Spares(w, Destroy(w, e), x)
  {
  }

  lemma ClearStageSpares(w: World, e: nat, x: set<nat>)
    requires Ids(w)
    ensures Spares(w, ClearStage(w, e), x)
  {
    SparesSame(w, x);
    var stage := if At(w, e).tag == Some("Boss_1") then 1 else 2;
    CreateSpares(w, StageNotice(stage), x);
    assert forall d: nat :: At(ClearStage(w, e), d) == At(Create(w, StageNotice(stage)), d) || ClearStage(w, e) == w;
  }

  lemma RewardSpares(w: World, scorer: nat, boss: bool, x: set<nat>)
    requires Ids(w)
    ensures Spares(w, Reward(w, scorer, boss), x)
  {
  }

  lemma DropSpares(w: World, e: nat, scorer: nat, lucky: set<nat>, x: set<nat>)
    requires Ids(w)
    ensures Spares(w, Drop(w, e, scorer, lucky), x)
  {
    SparesSame(w, x);
    if At(w, e).pos.Some? {
      CreateSpares(w, Item(At(w, e).pos.value), x);
    }
  }

  lemma SlainSpares(w: World, e: nat, scorer: nat, lucky: set<nat>, x: set<nat>)
    requires Ids(w) && e in x
    ensures Spares(w, Slain(w, e, scorer, lucky), x) && e !in Slain(w, e, scorer, lucky).valid
  {
    var boss := IsBoss(At(w, e));
    var w1 := ClearStage(w, e);
    var w2 := Reward(w1, scorer, boss);
    var w3 := if boss then w2 else Drop(w2, e, scorer, lucky);
    var w4 := Create(w3, BLANK);
    ClearStageSpares(w, e, x);
    RewardSpares(w1, scorer, boss, x);
    SparesTrans(w, w1, w2, x);
    SparesSame(w2, x);
    DropSpares(w2, e, scorer, lucky, x);
    SparesTrans(w, w2, w3, x);
    CreateSpares(w3, BLANK, x);
    SparesTrans(w, w3, w4, x);
    DestroySpares(w4, e, x);
    SparesTrans(w, w4, Destroy(w4, e), x);
  }

  lemma HpSpares(w: World, e: nat, hp: int, x: set<nat>)
    requires Ids(w) && e in w.ents && e in x
    ensures Spares(w, SetHp(w, e, hp), x)
  {
  }

  lemma StruckSpares(w: World, e: nat, scorer: nat, lucky: set<nat>, x: set<nat>)
    requires Ids(w) && e in w.ents && e in x
    ensures Spares(w, Struck(w, e, scorer, lucky), x)
  {
    SparesSame(w, x);
    var h := At(w, e).health;
    if h.None? {
      return;
    }
    var hp := h.value.hp - SHOT_DAMAGE;
    HpSpares(w, e, hp, x);
    if hp <= 0 {
      var v := SetHp(w, e, hp);
      assert Struck(w, e, scorer, lucky) == Slain(v, e, scorer, lucky);
      SlainSpares(v, e, scorer, lucky, x);
      SparesTrans(w, v, Slain(v, e, scorer, lucky), x);
    }
  }

  lemma HurtSpares(w: World, p: nat, damage: int, x: set<nat>)
    requires Ids(w) && p in w.ents && p in x
    ensures Spares(w, Hurt(w, p, damage), x)
  {
  }

  lemma ShotSpares(w: World, s: nat, e: nat, lucky: set<nat>, x: set<nat>)
    requires Ids(w) && e in w.ents && e in x && s in x
    ensures Spares(w, Shot(w, s, e, lucky), x)
  {
    var v := Spent(w, s);
    SparesSame(w, x);
    DestroySpares(w, s, x);
    StruckSpares(v, e, Scorer(At(w, s)), lucky, x);
    SparesTrans(w, v, Shot(w, s, e, lucky), x);
  }

  lemma WithPodSpares(w: World, p: nat, x: set<nat>)
    requires Ids(w)
    ensures Spares(w, WithPod(w, p), x)
  {
    CreateSpares(w, BLANK, x);
  }

  lemma CollectedSpares(w: World, p: nat, u: nat, x: set<nat>)
    requires Ids(w) && p in w.ents && p in x && u in x
    ensures Spares(w, Collected(w, p, u), x)
  {
    if At(w, u).powerUp == Some(ForcePod) {
      var v := WithPod(w, p);
      WithPodSpares(w, p, x);
      DestroySpares(v, u, x);
      SparesTrans(w, v, Destroy(v, u), x);
    } else {
      var v := Heal(w, p);
      assert Spares(w, v, x);
      CreateSpares(v, BLANK, x);
      SparesTrans(w, v, Create(v, BLANK), x);
      DestroySpares(Create(v, BLANK), u, x);
      SparesTrans(w, Create(v, BLANK), Collected(w, p, u), x);
    }
  }

  lemma HurtBySpares(w: World, s: nat, p: nat, damage: int, x: set<nat>)
    requires Ids(w) && p in w.ents && p in x && s in x
    ensures Spares(w, Hurt(Destroy(w, s), p, damage), x)
  {
    DestroySpares(w, s, x);
    HurtSpares(Destroy(w, s), p, damage, x);
    SparesTrans(w, Destroy(w, s), Hurt(Destroy(w, s), p, damage), x);
  }

  lemma BruisedSpares(w: World, a: nat, b: nat, x: set<nat>)
    requires Ids(w) && a in w.ents && b in w.ents && a in x && b in x
    ensures Spares(w, Bruise(Bruise(w, a, 10), b, 10), x)
  {
    var v := Bruise(w, a, 10);
    assert Spares(w, v, x);
    assert Spares(v, Bruise(v, b, 10), x);
    SparesTrans(w, v, Bruise(v, b, 10), x);
  }

  /** Bystanders of a collision: their hit points stay, and but for force pods lying about they
      are not destroyed. */
  lemma HandledSpares(w: World, a: nat, b: nat, friendlyFire: bool, lucky: set<nat>)
    requires Ids(w) && a in w.ents && b in w.ents && a != b
    requires ShouldCollide(LayerOf(At(w, a)), LayerOf(At(w, b)), friendlyFire)
    ensures Spares(w, Handled(w, a, b, LayerOf(At(w, a)), LayerOf(At(w, b)), lucky), {a, b})
  {
    var la, lb := LayerOf(At(w, a)), LayerOf(At(w, b));
    SparesSame(w, {a, b});
    if Listed(la, lb) {
      ListedSpares(w, a, b, lucky, {a, b});
    } else if Listed(lb, la) {
      HandledSymmetric(w, a, b, la, lb, lucky);
      ListedSpares(w, b, a, lucky, {a, b});
    }
  }

  lemma ListedSpares(w: World, a: nat, b: nat, lucky: set<nat>, x: set<nat>)
    requires Ids(w) && a in w.ents && b in w.ents && a in x && b in x && Listed(LayerOf(At(w, a)), LayerOf(At(w, b)))
    ensures Spares(w, Handled(w, a, b, LayerOf(At(w, a)), LayerOf(At(w, b)), lucky), x)
  {
    match (LayerOf(At(w, a)), LayerOf(At(w, b)))
    case (Player, Enemy) => HurtSpares(w, a, 10, x);
    case (Player, PowerUp) => CollectedSpares(w, a, b, x);
    case (Player, Obstacle) => PushedSpares(w, a, b, x);
    case (Player, Player) => BruisedSpares(w, a, b, x);
    case (PlayerProjectile, Enemy) => ShotSpares(w, a, b, lucky, x);
    case (PlayerProjectile, Obstacle) => DestroySpares(w, a, x);
    case (PlayerProjectile, EnemyProjectile) => SpentSpares(w, a, b, x);
    case (PlayerProjectile, Player) => HurtBySpares(w, a, b, 15, x);
    case (EnemyProjectile, Player) => HurtBySpares(w, a, b, 20, x);
  }

  lemma PushedSpares(w: World, p: nat, o: nat, x: set<nat>)
    requires Ids(w) && p in w.ents && p in x
    ensures Spares(w, Pushed(w, p, o), x)
  {
  }

  lemma SpentSpares(w: World, s: nat, t: nat, x: set<nat>)
    requires Ids(w) && s in x && t in x
    ensures Spares(w, Destroy(Spent(w, s), t), x)
  {
    SparesSame(w, x);
    DestroySpares(w, s, x);
    DestroySpares(Spent(w, s), t, x);
    SparesTrans(w, Spent(w, s), Destroy(Spent(w, s), t), x);
  }

  // One enemy in one collision.

  /** A shot takes 25 hit points from the enemy, which it survives exactly when it had more. */
  lemma ShotTakes(w: World, s: nat, e: nat, lucky: set<nat>)
    requires Ids(w) && e in w.valid && e in w.ents && s != e && At(w, e).health.Some?
    ensures var v, hp := Shot(w, s, e, lucky), At(w, e).health.value.hp;
      && (e in v.valid <==> hp > SHOT_DAMAGE)
      && (e in v.valid ==> At(v, e).health == Some(At(w, e).health.value.(hp := hp - SHOT_DAMAGE)))
  {
    var w1, hp := Spent(w, s), At(w, e).health.value.hp;
    if hp - SHOT_DAMAGE <= 0 {
      SlainSpares(SetHp(w1, e, hp - SHOT_DAMAGE), e, Scorer(At(w, s)), lucky, {e});
    }
  }

  /** An enemy ramming a player, or running into an obstacle, comes to no harm. */
  lemma EnemyUnharmed(w: World, a: nat, b: nat, friendlyFire: bool, lucky: set<nat>)
    requires Ids(w) && a in w.ents && b in w.ents && a != b && On(At(w, a), Enemy)
    requires !On(At(w, b), PlayerProjectile)
    requires ShouldCollide(Enemy, LayerOf(At(w, b)), friendlyFire)
    ensures var v := Handled(w, a, b, Enemy, LayerOf(At(w, b)), lucky);
      At(v, a).health == At(w, a).health && (a in w.valid ==> a in v.valid)
  {
    if On(At(w, b), Player) {
      HurtSpares(w, b, 10, {b});
    }
  }

  // One player in one collision.

  /** What meeting one in this layer costs a player. */
  function Harm(other: Layer): nat {
    match other
    case Enemy => 10
    case EnemyProjectile => 20
    case PlayerProjectile => 15
    case Player => 10
    case _ => 0
  }

  function HpAfter(h: Health, other: Layer, kind: Option<PowerUpKind>): int {
    if other == PowerUp then
      if kind == Some(ForcePod) then h.hp else if h.hp + 30 > h.maxHp then h.maxHp else h.hp + 30
    else if h.hp <= 0 then h.hp
    else h.hp - Harm(other)
  }

  /** A player's hit points after a collision, whoever comes first in the pair; and when the
      player is destroyed by it: only without lives, and never by another player. */
  lemma PlayerHarm(w: World, p: nat, x: nat, friendlyFire: bool, lucky: set<nat>)
    requires Ids(w) && Takes(w, p) && Takes(w, x) && p in w.ents && x in w.ents && p != x && On(At(w, p), Player)
    requires ShouldCollide(Player, LayerOf(At(w, x)), friendlyFire) && At(w, p).tag != Some("ForcePodItem")
    ensures var other := LayerOf(At(w, x));
      var v, u := Handled(w, p, x, Player, other, lucky), Handled(w, x, p, other, Player, lucky);
      var c := At(w, p);
      && u == v
      && (c.health.None? ==> At(v, p).health.None? && p in v.valid)
      && (c.health.Some? ==>
            var h := c.health.value;
            var hp := HpAfter(h, other, At(w, x).powerUp);
            && At(v, p).health == Some(h.(hp := hp))
            && (p !in v.valid <==> c.lives.None? && hp <= 0 < h.hp && other != Player && other != PowerUp))
  {
    var other := LayerOf(At(w, x));
    HandledSymmetric(w, p, x, Player, other, lucky);
    if other == PowerUp && At(w, x).powerUp == Some(ForcePod) {
      WithPodSpares(w, p, {x});
    } else if other == Player {
      assert At(Bruise(w, p, 10), x) == At(w, x);
    }
  }

  // The account of every enemy.

  predicate Fights(w: World, e: nat) {
    On(At(w, e), Enemy) && At(w, e).health.Some?
  }

  /** A live enemy has lost exactly 25 hit points for each shot. */
  predicate Accounted(w: World, e: nat) {
    e in w.valid && Fights(w, e) ==>
      At(w, e).health.value.hp == At(w, e).health.value.maxHp - SHOT_DAMAGE * ShotsOn(w.hits, e)
  }

  /** Shot number `i` destroyed it exactly if the shots up to there made up its maximum. */
  predicate OnTime(w: World, e: nat, i: int)
    requires Fights(w, e)
  {
    0 <= i < |w.hits| && IsShot(w.hits[i], e) ==>
      (e in w.hits[i].killed <==> SHOT_DAMAGE * ShotsOn(w.hits[..i + 1], e) >= At(w, e).health.value.maxHp)
  }

  ghost predicate EnemyOk(w: World, e: nat) {
    Fights(w, e) ==> Accounted(w, e) && forall i :: OnTime(w, e, i)
  }

  ghost predicate DamageOk(w: World) {
    && (forall e: nat :: EnemyOk(w, e))
    && (forall i :: 0 <= i < |w.hits| ==> w.hits[i].first.id < w.next && w.hits[i].second.id < w.next)
  }

  /** An entity that no step has touched, and no new collision either. */
  lemma SameEnemy(w: World, v: World, e: nat)
    requires EnemyOk(w, e) && v.hits == w.hits
    requires Fights(v, e) ==> Fights(w, e) && At(v, e).health == At(w, e).health
    requires Fights(v, e) && e in v.valid ==> e in w.valid
    ensures EnemyOk(v, e)
  {
    if Fights(v, e) {
      forall i
        ensures OnTime(v, e, i)
      {
        assert OnTime(w, e, i);
      }
    }
  }

  /** The account after one more collision. */
  lemma NextHit(w: World, v: World, e: nat, h: Hit)
    requires EnemyOk(w, e) && v.hits == w.hits + [h]
    requires Fights(v, e) ==> Fights(w, e) && At(v, e).health.value.maxHp == At(w, e).health.value.maxHp
    requires Fights(v, e) && e in v.valid ==>
      && e in w.valid
      && At(v, e).health.value.hp == At(w, e).health.value.hp - if IsShot(h, e) then SHOT_DAMAGE else 0
    requires Fights(v, e) && IsShot(h, e) ==>
      e in w.valid && (e in h.killed <==> At(w, e).health.value.hp <= SHOT_DAMAGE)
    ensures EnemyOk(v, e)
  {
    if Fights(v, e) {
      assert v.hits[..|w.hits|] == w.hits;
      forall i
        ensures OnTime(v, e, i)
      {
        if 0 <= i < |w.hits| {
          assert OnTime(w, e, i);
          assert v.hits[..i + 1] == w.hits[..i + 1];
        } else if i == |w.hits| {
          assert v.hits[..i + 1] == v.hits;
        }
      }
    }
  }

  /** An enemy that takes part in a collision. */
  lemma EnemyMeets(w: World, a: nat, b: nat, friendlyFire: bool, lucky: set<nat>)
    requires Ids(w) && Takes(w, a) && a in w.ents && b in w.ents && a != b && Fights(w, a)
    requires ShouldCollide(Enemy, LayerOf(At(w, b)), friendlyFire)
    ensures var v, hp := Handled(w, a, b, Enemy, LayerOf(At(w, b)), lucky), At(w, a).health.value.hp;
      var shot := LayerOf(At(w, b)) == PlayerProjectile;
      && (a in v.valid ==> At(v, a).health == Some(At(w, a).health.value.(hp := hp - if shot then SHOT_DAMAGE else 0)))
      && (shot ==> (a !in v.valid <==> hp <= SHOT_DAMAGE))
  {
    if LayerOf(At(w, b)) == PlayerProjectile {
      ShotTakes(w, b, a, lucky);
    } else {
      EnemyUnharmed(w, a, b, friendlyFire, lucky);
    }
  }

  lemma MeetFirst(w: World, a: nat, b: nat, friendlyFire: bool, lucky: set<nat>)
    requires Inv(w) && Takes(w, a) && a != b && EnemyOk(w, a) && Collide(w, a, b, friendlyFire) && Fights(w, a)
    ensures EnemyOk(Meet(w, a, b, friendlyFire, lucky), a)
  {
    var v := Meet(w, a, b, friendlyFire, lucky);
    MeetKeeps(w, a, b, friendlyFire, lucky);
    assert Changed(w.ents[a], v.ents[a]);
    EnemyMeets(w, a, b, friendlyFire, lucky);
    NextHit(w, v, a, v.hits[|w.hits|]);
  }

  lemma MeetSecond(w: World, a: nat, b: nat, friendlyFire: bool, lucky: set<nat>)
    requires Inv(w) && Takes(w, a) && a != b && EnemyOk(w, b) && Collide(w, a, b, friendlyFire) && Fights(w, b)
    ensures EnemyOk(Meet(w, a, b, friendlyFire, lucky), b)
  {
    var v := Meet(w, a, b, friendlyFire, lucky);
    MeetKeeps(w, a, b, friendlyFire, lucky);
    assert Changed(w.ents[b], v.ents[b]);
    HandledSymmetric(w, a, b, LayerOf(At(w, a)), LayerOf(At(w, b)), lucky);
    EnemyMeets(w, b, a, friendlyFire, lucky);
    NextHit(w, v, b, v.hits[|w.hits|]);
  }

  lemma MeetOther(w: World, a: nat, b: nat, friendlyFire: bool, lucky: set<nat>, e: nat)
    requires Inv(w) && Takes(w, a) && a != b && EnemyOk(w, e) && Collide(w, a, b, friendlyFire) && e != a && e != b
    ensures EnemyOk(Meet(w, a, b, friendlyFire, lucky), e)
  {
    var v := Meet(w, a, b, friendlyFire, lucky);
    MeetKeeps(w, a, b, friendlyFire, lucky);
    HandledSpares(w, a, b, friendlyFire, lucky);
    assert Fights(v, e) ==> e in w.ents && Changed(w.ents[e], v.ents[e]);
    NextHit(w, v, e, v.hits[|w.hits|]);
  }

  lemma MeetEnemy(w: World, a: nat, b: nat, friendlyFire: bool, lucky: set<nat>, e: nat)
    requires Inv(w) && Takes(w, a) && a != b && EnemyOk(w, e) && Collide(w, a, b, friendlyFire)
    ensures EnemyOk(Meet(w, a, b, friendlyFire, lucky), e)
  {
    MeetKeeps(w, a, b, friendlyFire, lucky);
    if e != a && e != b {
      MeetOther(w, a, b, friendlyFire, lucky, e);
    } else if Fights(w, e) {
      if e == a {
        MeetFirst(w, a, b, friendlyFire, lucky);
      } else {
        MeetSecond(w, a, b, friendlyFire, lucky);
      }
    } else {
      assert Changed(At(w, e), At(Meet(w, a, b, friendlyFire, lucky), e));
    }
  }

  lemma MeetAccounts(w: World, a: nat, b: nat, friendlyFire: bool, lucky: set<nat>)
    requires Inv(w) && DamageOk(w) && Takes(w, a) && a != b
    ensures DamageOk(Meet(w, a, b, friendlyFire, lucky))
  {
    if Collide(w, a, b, friendlyFire) {
      var v := Meet(w, a, b, friendlyFire, lucky);
      MeetKeeps(w, a, b, friendlyFire, lucky);
      forall e: nat
        ensures EnemyOk(v, e)
      {
        MeetEnemy(w, a, b, friendlyFire, lucky, e);
      }
    }
  }

  lemma {:induction false} AgainstAccounts(w: World, a: nat, rest: seq<nat>, friendlyFire: bool, lucky: set<nat>)
    requires Inv(w) && DamageOk(w) && Takes(w, a) && a !in rest
    ensures DamageOk(Against(w, a, rest, friendlyFire, lucky))
    decreases |rest|
  {
    if rest != [] {
      var v := Meet(w, a, rest[0], friendlyFire, lucky);
      MeetKeeps(w, a, rest[0], friendlyFire, lucky);
      MeetAccounts(w, a, rest[0], friendlyFire, lucky);
      if a in v.valid {
        AgainstAccounts(v, a, rest[1..], friendlyFire, lucky);
      }
    }
  }

  lemma {:induction false} CollidedAccounts(w: World, order: seq<nat>, friendlyFire: bool, lucky: set<nat>)
    requires Inv(w) && DamageOk(w) && Distinct(order)
    ensures DamageOk(Collided(w, order, friendlyFire, lucky))
    decreases |order|
  {
    if order != [] {
      var v := if Takes(w, order[0]) then Against(w, order[0], order[1..], friendlyFire, lucky) else w;
      if Takes(w, order[0]) {
        AgainstKeeps(w, order[0], order[1..], friendlyFire, lucky);
        AgainstAccounts(w, order[0], order[1..], friendlyFire, lucky);
      }
      CollidedAccounts(v, order[1..], friendlyFire, lucky);
    }
  }

  lemma {:induction false} NoShotsYet(hits: seq<Hit>, e: nat)
    requires forall i :: 0 <= i < |hits| ==> hits[i].first.id < e && hits[i].second.id < e
    ensures ShotsOn(hits, e) == 0
    decreases |hits|
  {
    if hits != [] {
      NoShotsYet(hits[..|hits| - 1], e);
    }
  }

  lemma SpawnAccounts(w: World, c: Entity)
    requires Ids(w) && DamageOk(w) && Creatable(c)
    ensures DamageOk(Create(w, c))
  {
    var v := Create(w, c);
    forall e: nat
      ensures EnemyOk(v, e)
    {
      assert EnemyOk(w, e);
      if e == w.next {
        NoShotsYet(w.hits, e);
        assert Accounted(v, e);
      } else {
        SameEnemy(w, v, e);
      }
    }
  }

  /** The steps without collisions leave enemies' hit points alone. */
  lemma QuietStep(w: World, step: Step)
    requires Inv(w) && DamageOk(w) && !step.Collisions? && !step.Spawn?
    ensures DamageOk(Apply(w, step))
  {
    var v := Apply(w, step);
    forall e: nat
      ensures EnemyOk(v, e)
    {
      assert EnemyOk(w, e) && (e in w.valid ==> Sound(At(w, e)));
      SameEnemy(w, v, e);
    }
  }

  lemma {:induction false} RunAccounts(steps: seq<Step>)
    ensures DamageOk(Run(steps))
    decreases |steps|
  {
    if steps != [] {
      var front, last := steps[..|steps| - 1], steps[|steps| - 1];
      var w := Run(front);
      RunAccounts(front);
      RunKeeps(front);
      match last
      case Spawn(c) => if Creatable(c) { SpawnAccounts(w, c); }
      case Collisions(order, ff, lucky) => if IsView(w, order) { CollidedAccounts(w, order, ff, lucky); }
      case _ => QuietStep(w, last);
    }
  }

  /** In every reachable state, whatever the run: a live enemy's hit points are its maximum less
      25 for each shot it took; and a shot at an enemy destroyed it if and only if the shots up to
      then made up its maximum. */
  lemma DamageAddsUp(steps: seq<Step>, e: nat)
    requires Fights(Run(steps), e)
    ensures var w, h := Run(steps), At(Run(steps), e).health.value;
      && (e in w.valid ==> h.hp == h.maxHp - 25 * ShotsOn(w.hits, e))
      && (forall i :: 0 <= i < |w.hits| && IsShot(w.hits[i], e) ==>
            (e in w.hits[i].killed <==> 25 * ShotsOn(w.hits[..i + 1], e) >= h.maxHp))
  {
    RunAccounts(steps);
    var w := Run(steps);
    assert EnemyOk(w, e);
    forall i | 0 <= i < |w.hits| && IsShot(w.hits[i], e)
      ensures e in w.hits[i].killed <==> 25 * ShotsOn(w.hits[..i + 1], e) >= At(w, e).health.value.maxHp
    {
      assert OnTime(w, e, i);
    }
  }
}
