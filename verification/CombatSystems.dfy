/** The two systems that share hit points and lives, as they work on the registry in place:
    collisions pair by pair (ecs/src/systems/CollisionSystem.cpp), then life losses, respawns and
    invincibility (ecs/src/systems/LivesSystem.cpp). */
module CombatSystems {
  import opened Common
  import opened Combat
  import opened CombatLaws
  import PushOut
  import SpawnSystem
  import Text

  class Battle {
    var next: nat
    var valid: set<nat>
    var ents: map<nat, Entity>
    var spawner: SpawnSystem.Spawner
    ghost var hits: seq<Hit>

    ghost function Now(): World
      reads this
    {
      World(next, valid, ents, spawner, hits)
    }

    ghost predicate Valid()
      reads this
    {
      Inv(Now())
    }

    constructor ()
      ensures Now() == EMPTY
    {
      next, valid, ents, spawner, hits := 0, {}, map[], SpawnSystem.FIRST, [];
    }

    function Of(e: nat): Entity
      reads this
    {
      if e in ents then ents[e] else BLANK
    }

    method CreateEntity(c: Entity) returns (e: nat)
      modifies this
      ensures e == old(next) && Now() == Create(old(Now()), c)
    {
      e := next;
      next := next + 1;
      valid := valid + {e};
      ents := ents[e := c];
    }

    method DestroyEntity(e: nat)
      modifies this`valid
      ensures Now() == Destroy(old(Now()), e)
    {
      valid := valid - {e};
    }

    method WriteHp(e: nat, hp: int)
      requires Of(e).health.Some?
      modifies this`ents
      ensures Now() == SetHp(old(Now()), e, hp)
    {
      ents := ents[e := ents[e].(health := Some(ents[e].health.value.(hp := hp)))];
    }

    // Collisions.

    method HurtPlayer(p: nat, damage: int)
      modifies this`ents, this`valid
      ensures Now() == Hurt(old(Now()), p, damage)
    {
      if Of(p).health.Some? {
        if Of(p).health.value.hp <= 0 {
          return;
        }
        WriteHp(p, Of(p).health.value.hp - damage);
        if Of(p).health.value.hp <= 0 {
          if Of(p).lives.None? {
            DestroyEntity(p);
          }
        }
      }
    }

    method BruisePlayer(p: nat, damage: int)
      modifies this`ents
      ensures Now() == Bruise(old(Now()), p, damage)
    {
      if Of(p).health.Some? && Of(p).health.value.hp > 0 {
        WriteHp(p, Of(p).health.value.hp - damage);
      }
    }

    method CountPods(owner: nat) returns (n: nat)
      ensures n == |PodsOf(Now(), owner)|
    {
      n := 0;
      var left := valid;
      ghost var counted: set<nat> := {};
      while left != {}
        invariant left <= valid && n == |counted|
        invariant counted == set e | e in valid && e !in left && e in PodsOf(Now(), owner)
        decreases left
      {
        var e :| e in left;
        left := left - {e};
        if Of(e).tag == Some("ForcePod") && Of(e).parent == Some(owner) {
          n := n + 1;
          counted := counted + {e};
        }
      }
      assert counted == PodsOf(Now(), owner);
    }

    method SlayEnemy(e: nat, scorer: nat, lucky: set<nat>)
      modifies this
      ensures Now() == Slain(old(Now()), e, scorer, lucky)
    {
      var isBoss := false;
      if Of(e).tag == Some("Boss_1") {
        isBoss := true;
        var notice := CreateEntity(StageNotice(1));
        spawner := SpawnSystem.AdvanceLevel(spawner);
      } else if Of(e).tag == Some("Boss_2") {
        isBoss := true;
        var notice := CreateEntity(StageNotice(2));
      }
      assert Now() == ClearStage(old(Now()), e);
      if scorer != 0 {
        if scorer in valid && Of(scorer).score {
          ents := ents[scorer := Of(scorer).(scoreEvent := Some(if isBoss then 1000 else 100))];
        }
      }
      assert Now() == Reward(ClearStage(old(Now()), e), scorer, isBoss);
      if !isBoss && Of(e).pos.Some? {
        if e in lucky {
          var pods := 0;
          if scorer != 0 {
            pods := CountPods(scorer);
          }
          if pods < MAX_PODS {
            var item := CreateEntity(Item(Of(e).pos.value));
          }
        }
      }
      var audio := CreateEntity(BLANK);
      DestroyEntity(e);
    }

    method ShootEnemy(s: nat, e: nat, lucky: set<nat>)
      modifies this
      ensures Now() == Shot(old(Now()), s, e, lucky)
    {
      var scorer := Scorer(Of(s));
      var isCharged := Of(s).tag.Some? && Text.Contains(Of(s).tag.value, "charge");
      if !isCharged {
        DestroyEntity(s);
      }
      if Of(e).health.Some? {
        WriteHp(e, Of(e).health.value.hp - 25);
        if Of(e).health.value.hp <= 0 {
          SlayEnemy(e, scorer, lucky);
        }
      }
    }

    method SpawnCompanion(p: nat)
      requires p < next
      modifies this
      ensures Now() == WithPod(old(Now()), p)
    {
      var pod := CreateEntity(BLANK);
      var n := CountPods(p);
      if n >= MAX_PODS {
        return;
      }
      ents := ents[pod := Pod(Of(p).pos, p, n == 0)];
      if n == 1 {
        var left, toRemove: set<nat> := valid, {};
        while left != {}
          invariant left <= valid
          invariant toRemove == set e | e in valid && e !in left && e in Items(Now())
          decreases left
        {
          var e :| e in left;
          left := left - {e};
          if Of(e).tag == Some("ForcePodItem") {
            toRemove := toRemove + {e};
          }
        }
        assert toRemove == Items(Now());
        valid := valid - toRemove;
      }
    }

    method CollectPowerUp(p: nat, u: nat)
      requires p < next
      modifies this
      ensures Now() == Collected(old(Now()), p, u)
    {
      if Of(u).powerUp.Some? {
        if Of(u).powerUp.value == ForcePod {
          SpawnCompanion(p);
          DestroyEntity(u);
          return;
        }
      }
      if Of(p).health.Some? {
        var hp, maxHp := Of(p).health.value.hp + 30, Of(p).health.value.maxHp;
        if hp > maxHp {
          hp := maxHp;
        }
        WriteHp(p, hp);
      }
      var audio := CreateEntity(BLANK);
      DestroyEntity(u);
    }

    method PushPlayer(p: nat, o: nat)
      requires p in ents
      modifies this`ents
      ensures Now() == Pushed(old(Now()), p, o)
    {
      var c, d := Of(p), Of(o);
      if c.pos.Some? && c.size.Some? && d.pos.Some? && d.size.Some? {
        var x, y := c.pos.value.x, c.pos.value.y;
        var ox, oy := d.pos.value.x, d.pos.value.y;
        var overlapX := PushOut.Min(x + c.size.value.w, ox + d.size.value.w) - PushOut.Max(x, ox);
        var overlapY := PushOut.Min(y + c.size.value.h, oy + d.size.value.h) - PushOut.Max(y, oy);
        if overlapX < overlapY {
          x := if x < ox then x - overlapX else x + overlapX;
        } else {
          y := if y < oy then y - overlapY else y + overlapY;
        }
        ents := ents[p := c.(pos := Some(Point(x, y)))];
      }
    }

    method HandleCollision(a: nat, b: nat, la: Layer, lb: Layer, lucky: set<nat>)
      requires a in ents && b in ents && a < next && b < next
      modifies this
      ensures Now() == Handled(old(Now()), a, b, la, lb, lucky)
    {
      if (la == Player && lb == Enemy) || (la == Enemy && lb == Player) {
        HurtPlayer(if la == Player then a else b, 10);
      }
      if (la == PlayerProjectile && lb == Enemy) || (la == Enemy && lb == PlayerProjectile) {
        ShootEnemy(if la == PlayerProjectile then a else b, if la == Enemy then a else b, lucky);
      }
      if (la == EnemyProjectile && lb == Player) || (la == Player && lb == EnemyProjectile) {
        DestroyEntity(if la == EnemyProjectile then a else b);
        HurtPlayer(if la == Player then a else b, 20);
      }
      if (la == Player && lb == PowerUp) || (la == PowerUp && lb == Player) {
        CollectPowerUp(if la == Player then a else b, if la == PowerUp then a else b);
      }
      if (la == Companion && lb == Enemy) || (la == Enemy && lb == Companion) {
        var e := if la == Enemy then a else b;
        if Of(e).health.Some? {
          WriteHp(e, Of(e).health.value.hp - 100000);
          if Of(e).health.value.hp <= 0 {
            DestroyEntity(e);
          }
        }
      }
      if (la == Player && lb == Obstacle) || (la == Obstacle && lb == Player) {
        PushPlayer(if la == Player then a else b, if la == Obstacle then a else b);
      }
      if (la == PlayerProjectile && lb == Obstacle) || (la == Obstacle && lb == PlayerProjectile) {
        DestroyEntity(if la == PlayerProjectile then a else b);
      }
      if (la == PlayerProjectile && lb == EnemyProjectile) || (la == EnemyProjectile && lb == PlayerProjectile) {
        var s := if la == PlayerProjectile then a else b;
        var isCharged := Of(s).tag.Some? && Text.Contains(Of(s).tag.value, "charge");
        if !isCharged {
          DestroyEntity(s);
        }
        DestroyEntity(if la == EnemyProjectile then a else b);
      }
      if la == Player && lb == Player {
        BruisePlayer(a, 10);
        BruisePlayer(b, 10);
      }
      if (la == PlayerProjectile && lb == Player) || (la == Player && lb == PlayerProjectile) {
        DestroyEntity(if la == PlayerProjectile then a else b);
        HurtPlayer(if la == Player then a else b, 15);
      }
    }

    method MayCollide(a: Layer, b: Layer, friendlyFire: bool) returns (yes: bool)
      ensures yes == ShouldCollide(a, b, friendlyFire)
    {
      if a == NoLayer || b == NoLayer {
        return false;
      }
      if a == Player && b == Enemy {
        return true;
      }
      if a == Enemy && b == Player {
        return true;
      }
      if a == Player && b == EnemyProjectile {
        return true;
      }
      if a == EnemyProjectile && b == Player {
        return true;
      }
      if a == Enemy && b == PlayerProjectile {
        return true;
      }
      if a == PlayerProjectile && b == Enemy {
        return true;
      }
      if a == Player && b == PowerUp {
        return true;
      }
      if a == PowerUp && b == Player {
        return true;
      }
      if a == Obstacle || b == Obstacle {
        return true;
      }
      if a == PlayerProjectile && b == EnemyProjectile {
        return true;
      }
      if a == EnemyProjectile && b == PlayerProjectile {
        return true;
      }
      if friendlyFire {
        if a == Player && b == Player {
          return true;
        }
        if a == Player && b == PlayerProjectile {
          return true;
        }
        if a == PlayerProjectile && b == Player {
          return true;
        }
      }
      return false;
    }

    /** One pair of the loop. */
    method TryPair(a: nat, b: nat, friendlyFire: bool, lucky: set<nat>)
      requires Valid() && Takes(Now(), a)
      modifies this
      ensures Now() == Meet(old(Now()), a, b, friendlyFire, lucky)
    {
      if b !in valid {
        return;
      }
      if !Solid(Of(b)) || !Of(b).collidable.value.active {
        return;
      }
      var la, lb := Of(a).collidable.value.layer, Of(b).collidable.value.layer;
      var may := MayCollide(la, lb, friendlyFire);
      if !may {
        return;
      }
      if PushOut.Overlaps(BoxOf(Of(a)), BoxOf(Of(b))) {
        ghost var w := Now();
        HandleCollision(a, b, la, lb, lucky);
        hits := w.hits + [Hit(PartyOf(w, a), PartyOf(w, b), w.valid - valid)];
      }
    }

    /** `CollisionSystem::update`, `order` being the view's. */
    method UpdateCollisions(order: seq<nat>, friendlyFire: bool, lucky: set<nat>)
      requires Valid() && IsView(Now(), order)
      modifies this
      ensures Now() == Collided(old(Now()), order, friendlyFire, lucky) && Valid()
    {
      ghost var w0 := Now();
      CollidedKeeps(w0, order, friendlyFire, lucky);
      for i := 0 to |order|
        invariant Valid()
        invariant Collided(w0, order, friendlyFire, lucky) == Collided(Now(), order[i..], friendlyFire, lucky)
      {
        assert order[i..][1..] == order[i + 1..];
        var a := order[i];
        if a in valid && Solid(Of(a)) {
          if Of(a).collidable.value.active {
            AgainstKeeps(Now(), a, order[i + 1..], friendlyFire, lucky);
            Pairs(order, i, friendlyFire, lucky);
          }
        }
      }
    }

    /** The inner loop, which stops when its entity is destroyed. */
    method Pairs(order: seq<nat>, i: nat, friendlyFire: bool, lucky: set<nat>)
      requires i < |order| && Distinct(order) && Valid() && Takes(Now(), order[i])
      modifies this
      ensures Now() == Against(old(Now()), order[i], order[i + 1..], friendlyFire, lucky)
    {
      ghost var w0 := Now();
      var a := order[i];
      for j := i + 1 to |order|
        invariant Valid() && Takes(Now(), a)
        invariant Against(w0, a, order[i + 1..], friendlyFire, lucky) ==
          Against(Now(), a, order[j..], friendlyFire, lucky)
      {
        assert order[j..][1..] == order[j + 1..];
        MeetKeeps(Now(), a, order[j], friendlyFire, lucky);
        TryPair(a, order[j], friendlyFire, lucky);
        if a !in valid {
          return;
        }
      }
    }

    // Lives.

    /** One life less for one entity. */
    method LoseLife(c: Entity) returns (d: Entity, respawns: bool)
      requires LosesLife(c)
      ensures d == AfterLoss(c) && respawns == !Dies(c)
    {
      var remaining := c.lives.value - 1;
      d := c.(lives := Some(remaining));
      respawns := remaining > 0;
      if respawns {
        d := d.(health := Some(d.health.value.(hp := d.health.value.maxHp)));
        if d.vel.Some? {
          d := d.(vel := Some(Point(0.0, 0.0)));
        }
        if d.collidable.Some? {
          d := d.(collidable := Some(d.collidable.value.(active := false)));
        }
        d := d.(shield := Some(SHIELD_TIME));
      }
    }

    /** The first loop: who has no hit points left loses a life, and respawns or is destroyed. */
    method LoseLives()
      requires Ids(Now())
      modifies this`ents, this`valid
      ensures Now() == Bereft(old(Now()))
    {
      ghost var w := Now();
      var left, toDestroy: set<nat> := valid, {};
      while left != {}
        invariant left <= valid
        invariant toDestroy == set e | e in w.valid && e !in left && Dies(At(w, e))
        invariant Now() == w.(ents := ents)
        invariant ents == map e | e in w.ents :: if e in w.valid && e !in left then AfterLoss(w.ents[e]) else w.ents[e]
        decreases left
      {
        var e :| e in left;
        left := left - {e};
        var c := Of(e);
        if c.health.Some? && c.lives.Some? && c.pos.Some? {
          if c.health.value.hp <= 0 {
            var d, respawns := LoseLife(c);
            ents := ents[e := d];
            if !respawns {
              toDestroy := toDestroy + {e};
            }
          }
        }
      }
      valid := valid - toDestroy;
    }

    /** The second loop: shields run down, and with the last of them the player can be hit again. */
    method TickShields(dt: real)
      requires Ids(Now())
      modifies this`ents
      ensures Now() == Shielded(old(Now()), dt)
    {
      ghost var w := Now();
      var left := valid;
      while left != {}
        invariant left <= valid
        invariant Now() == w.(ents := ents)
        invariant ents == map e | e in w.ents ::
          if e in w.valid && e !in left then AfterTimer(w.ents[e], dt) else w.ents[e]
        decreases left
      {
        var e :| e in left;
        left := left - {e};
        var c := Of(e);
        if c.shield.Some? {
          c := c.(shield := Some(c.shield.value - dt));
          if c.shield.value <= 0.0 {
            if c.collidable.Some? {
              c := c.(collidable := Some(c.collidable.value.(active := true)));
            }
            c := c.(shield := None);
          }
          ents := ents[e := c];
        }
      }
    }

    /** `LivesSystem::update`. */
    method UpdateLives(dt: real)
      requires Valid() && dt >= 0.0
      modifies this
      ensures Now() == Lived(old(Now()), dt) && Valid()
    {
      LivedKeeps(Now(), dt);
      LivedInTwo(Now(), dt);
      LoseLives();
      TickShields(dt);
    }
  }

  /** The state after the first loop of `LivesSystem::update`, and after the second. */
  function Bereft(w: World): World {
    w.(valid := (set e | e in w.valid && !Dies(At(w, e))),
       ents := map e | e in w.ents :: if e in w.valid then AfterLoss(w.ents[e]) else w.ents[e])
  }

  function Shielded(w: World, dt: real): World {
    w.(ents := map e | e in w.ents :: if e in w.valid then AfterTimer(w.ents[e], dt) else w.ents[e])
  }

  /** The two loops over views come to one pass, entity by entity. */
  lemma LivedInTwo(w: World, dt: real)
    requires Ids(w)
    ensures Lived(w, dt) == Shielded(Bereft(w), dt) && Ids(Bereft(w))
  {
    assert Lived(w, dt).ents == Shielded(Bereft(w), dt).ents;
  }
}
