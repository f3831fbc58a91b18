/** What holds over every run of the collision and lives systems, with anything the other systems
    and the network thread may do in between. */
module CombatRuns {
  import opened Common
  import opened Combat
  import opened CombatLaws
  import SpawnSystem

  /** `Spawn`, `Adjust`, `Die` and `Schedule` stand for the other systems: they create entities,
      move them and clear their score events, destroy them, and advance the wave schedule. */
  datatype Step =
    | Spawn(components: Entity)
    | Adjust(entity: nat, pos: Option<Point>, vel: Option<Point>, scoreEvent: Option<int>)
    | Die(entity: nat)
    | Schedule(spawner: SpawnSystem.Spawner)
    | Collisions(order: seq<nat>, friendlyFire: bool, lucky: set<nat>)
    | Lives(dt: real)

  /** The other systems create entities at full health, active and unshielded; only players have
      lives; force pods come from power-ups alone. */
  predicate Creatable(c: Entity) {
    && Sound(c) && c.shield.None? && c.tag != Some("ForcePod")
    && (c.health.Some? ==> c.health.value.hp == c.health.value.maxHp)
  }

  function PlayerEntity(at: Point, size: Size, lives: int): Entity {
    BLANK.(pos := Some(at), vel := Some(Point(0.0, 0.0)), size := Some(size), health := Some(Health(100, 100)),
           score := true, lives := Some(lives), tag := Some("Player"), collidable := Some(Collidable(Player, true)))
  }

  function EnemyEntity(at: Point, vel: Point, size: Size, kind: string, hp: int): Entity {
    BLANK.(pos := Some(at), vel := Some(vel), size := Some(size), health := Some(Health(hp, hp)),
           tag := Some(kind), collidable := Some(Collidable(Enemy, true)))
  }

  function ProjectileEntity(at: Point, vel: Point, size: Size, tag: string, layer: Layer, owner: nat): Entity {
    BLANK.(pos := Some(at), vel := Some(vel), size := Some(size), tag := Some(tag), owner := Some(owner),
           collidable := Some(Collidable(layer, true)))
  }

  /** What the server creates may be created: players exactly with at least one life, enemies
      exactly with hit points. */
  lemma ServerEntities(at: Point, vel: Point, size: Size, lives: int, hp: int, tag: string, owner: nat)
    requires tag != "ForcePod"
    ensures Creatable(PlayerEntity(at, size, lives)) <==> lives >= 1
    ensures Creatable(EnemyEntity(at, vel, size, tag, hp)) <==> hp > 0
    ensures Creatable(ProjectileEntity(at, vel, size, tag, PlayerProjectile, owner))
    ensures Creatable(ProjectileEntity(at, vel, size, tag, EnemyProjectile, owner))
  {
  }

  function Apply(w: World, step: Step): World {
    match step
    case Spawn(c) => if Creatable(c) then Create(w, c) else w
    case Adjust(e, pos, vel, event) =>
      if e in w.ents && pos.Some? == w.ents[e].pos.Some? then
        Put(w, e, w.ents[e].(pos := pos, vel := vel, scoreEvent := event))
      else w
    case Die(e) => Destroy(w, e)
    case Schedule(sp) => w.(spawner := sp)
    case Collisions(order, ff, lucky) => if IsView(w, order) then Collided(w, order, ff, lucky) else w
    case Lives(dt) => if dt >= 0.0 then Lived(w, dt) else w
  }

  function Run(steps: seq<Step>): World
    decreases |steps|
  {
    if steps == [] then EMPTY else Apply(Run(steps[..|steps| - 1]), steps[|steps| - 1])
  }

  /** The time the lives system has been given. */
  function Clock(steps: seq<Step>): real
    decreases |steps|
  {
    if steps == [] then 0.0
    else
      var last := steps[|steps| - 1];
      Clock(steps[..|steps| - 1]) + if last.Lives? && last.dt >= 0.0 then last.dt else 0.0
  }

  lemma AdjustKeeps(w: World, e: nat, pos: Option<Point>, vel: Option<Point>, event: Option<int>)
    requires Inv(w)
    ensures Inv(Apply(w, Adjust(e, pos, vel, event)))
  {
    var v := Apply(w, Adjust(e, pos, vel, event));
    forall d: nat | d in v.valid
      ensures Sound(At(v, d))
    {
      assert Sound(At(w, d));
    }
    FewerPods(w, v);
    assert forall i :: 0 <= i < |v.hits| ==> HitOk(w, v.hits[i]) ==> HitOk(v, v.hits[i]);
  }

  lemma StepKeeps(w: World, step: Step)
    requires Inv(w)
    ensures Inv(Apply(w, step))
  {
    match step
    case Spawn(c) =>
      if Creatable(c) {
        CreateKeeps(w, c, {});
        LaterHits(w, Create(w, c));
      }
    case Adjust(e, pos, vel, event) => AdjustKeeps(w, e, pos, vel, event);
    case Die(e) =>
      JustDestroy(w, e);
      LaterHits(w, Destroy(w, e));
    case Schedule(sp) =>
      SpawnerKeeps(w, sp, {});
      LaterHits(w, w.(spawner := sp));
    case Collisions(order, ff, lucky) => if IsView(w, order) { CollidedKeeps(w, order, ff, lucky); }
    case Lives(dt) => if dt >= 0.0 { LivedKeeps(w, dt); }
  }

  lemma EmptyIsGood()
    ensures Inv(EMPTY)
  {
    forall p: nat
      ensures PodsBound(EMPTY, p)
    {
      assert PodsOf(EMPTY, p) == {};
    }
  }

  /** Every reachable state is in order. */
  lemma {:induction false} RunKeeps(steps: seq<Step>)
    ensures Inv(Run(steps))
    decreases |steps|
  {
    if steps == [] {
      EmptyIsGood();
    } else {
      RunKeeps(steps[..|steps| - 1]);
      StepKeeps(Run(steps[..|steps| - 1]), steps[|steps| - 1]);
    }
  }

  // What that means.

  /** In every reachable state: a live player has more than -20 and at most its maximum of hit
      points, a live enemy more than none; whoever is inactive has time left on its shield; and no
      player owns more than two live force pods. */
  lemma ReachableBounds(steps: seq<Step>, e: nat)
    requires e in Run(steps).valid
    ensures var c := At(Run(steps), e);
      && (On(c, Player) && c.health.Some? ==> -20 < c.health.value.hp <= c.health.value.maxHp)
      && (On(c, Enemy) && c.health.Some? ==> c.health.value.hp > 0)
      && (c.collidable.Some? && !c.collidable.value.active ==> c.shield.Some? && c.shield.value > 0.0)
    ensures |PodsOf(Run(steps), e)| <= 2
  {
    RunKeeps(steps);
    assert Sound(At(Run(steps), e)) && PodsBound(Run(steps), e);
  }

  /** Once a collision has destroyed an entity, the entity takes part in no later collision, of
      the same update or any other. */
  lemma TheDeadDoNotCollide(steps: seq<Step>, i: nat, j: nat)
    requires i < j < |Run(steps).hits|
    ensures var earlier, later := Run(steps).hits[i], Run(steps).hits[j];
      later.first.id !in earlier.killed && later.second.id !in earlier.killed
  {
    RunKeeps(steps);
    assert After(Run(steps).hits[i], Run(steps).hits[j]);
  }

  predicate Side(p: Party, q: Party, id: nat, layer: Layer, other: Layer, uncharged: bool) {
    p.id == id && p.layer == layer && q.layer == other && (uncharged ==> !p.charged)
  }

  /** The collision was between `id`, in the one layer, and somebody in the other. */
  predicate Between(h: Hit, id: nat, layer: Layer, other: Layer, uncharged: bool) {
    Side(h.first, h.second, id, layer, other, uncharged) || Side(h.second, h.first, id, layer, other, uncharged)
  }

  /** A projectile of a player that is not charged hits one enemy at most, ever; one of an enemy
      hits one player at most; and a power-up serves one player at most, however many overlap it
      at the same time. */
  lemma OneVictimEach(steps: seq<Step>, i: nat, j: nat, id: nat)
    requires i < j < |Run(steps).hits|
    ensures var h, k := Run(steps).hits[i], Run(steps).hits[j];
      && (Between(h, id, PlayerProjectile, Enemy, true) ==> !Between(k, id, PlayerProjectile, Enemy, false))
      && (Between(h, id, EnemyProjectile, Player, false) ==> !Between(k, id, EnemyProjectile, Player, false))
      && (Between(h, id, PowerUp, Player, false) ==> !Between(k, id, PowerUp, Player, false))
  {
    RunKeeps(steps);
    TheDeadDoNotCollide(steps, i, j);
    assert HitOk(Run(steps), Run(steps).hits[i]);
  }

  // The spacing of life losses.

  lemma ClockStep(steps: seq<Step>, n: nat)
    requires n < |steps|
    ensures Clock(steps[..n + 1]) ==
      Clock(steps[..n]) + (if steps[n].Lives? && steps[n].dt >= 0.0 then steps[n].dt else 0.0)
    ensures Run(steps[..n + 1]) == Apply(Run(steps[..n]), steps[n])
  {
    assert steps[..n + 1][..n] == steps[..n];
  }

  predicate LosesAt(steps: seq<Step>, n: nat, e: nat) {
    && n < |steps| && steps[n].Lives? && steps[n].dt >= 0.0
    && e in Run(steps[..n]).valid && LosesLife(At(Run(steps[..n]), e))
  }

  /** `t` after a life loss, a live player is active again only if the shield's time is over, and
      otherwise what is left of it is exactly the rest. */
  predicate Guarded(w: World, e: nat, t: real) {
    && e in w.ents && t >= 0.0
    && (e in w.valid ==>
          && On(At(w, e), Player)
          && (if Active(At(w, e)) then t >= SHIELD_TIME else At(w, e).shield == Some(SHIELD_TIME - t)))
  }

  lemma LossGuards(w: World, e: nat, dt: real)
    requires Inv(w) && e in w.valid && LosesLife(At(w, e)) && dt >= 0.0
    ensures Guarded(Lived(w, dt), e, dt)
  {
    assert Sound(At(w, e));
  }

  lemma GuardLived(w: World, e: nat, t: real, dt: real)
    requires Inv(w) && Guarded(w, e, t) && dt >= 0.0 && !(e in w.valid && LosesLife(At(w, e)))
    ensures Guarded(Lived(w, dt), e, t + dt)
  {
    assert e in w.valid ==> Sound(At(w, e));
  }

  lemma GuardStep(w: World, step: Step, e: nat, t: real)
    requires Inv(w) && Guarded(w, e, t) && !step.Lives?
    ensures Guarded(Apply(w, step), e, t)
  {
    assert e < w.next;
    if step.Collisions? && IsView(w, step.order) {
      CollidedKeeps(w, step.order, step.friendlyFire, step.lucky);
      assert Changed(w.ents[e], Apply(w, step).ents[e]);
    }
  }

  /** While guarded and inactive a player cannot lose a life. */
  lemma GuardedKeepsLife(w: World, e: nat, t: real)
    requires Inv(w) && Guarded(w, e, t) && e in w.valid && LosesLife(At(w, e))
    ensures t >= SHIELD_TIME
  {
    assert Sound(At(w, e));
  }

  /** One step that is not another loss. */
  lemma GuardNext(steps: seq<Step>, m: nat, e: nat, t: real)
    requires m < |steps| && Guarded(Run(steps[..m]), e, t) && !LosesAt(steps, m, e)
    ensures Guarded(Run(steps[..m + 1]), e, t + Clock(steps[..m + 1]) - Clock(steps[..m]))
  {
    ClockStep(steps, m);
    RunKeeps(steps[..m]);
    if steps[m].Lives? && steps[m].dt >= 0.0 {
      GuardLived(Run(steps[..m]), e, t, steps[m].dt);
    } else if !steps[m].Lives? {
      GuardStep(Run(steps[..m]), steps[m], e, t);
    }
  }

  /** The state of a player between one loss and the next. */
  lemma {:induction false} GuardedSince(steps: seq<Step>, i: nat, n: nat, e: nat)
    requires i < n <= |steps| && LosesAt(steps, i, e)
    requires forall k :: i < k < n ==> !LosesAt(steps, k, e)
    ensures Guarded(Run(steps[..n]), e, Clock(steps[..n]) - Clock(steps[..i]))
    decreases n
  {
    var m := n - 1;
    if m == i {
      RunKeeps(steps[..m]);
      ClockStep(steps, m);
      LossGuards(Run(steps[..m]), e, steps[m].dt);
    } else {
      GuardedSince(steps, i, m, e);
      GuardNext(steps, m, e, Clock(steps[..m]) - Clock(steps[..i]));
    }
  }

  lemma {:induction false} ClockGrows(steps: seq<Step>, i: nat, n: nat)
    requires i <= n <= |steps|
    ensures Clock(steps[..i]) <= Clock(steps[..n])
    decreases n
  {
    if i < n {
      ClockStep(steps, n - 1);
      ClockGrows(steps, i, n - 1);
    }
  }

  /** Two life losses of one player are at least two seconds apart, counting from before the
      update of the first loss to before that of the second. */
  lemma {:induction false} LossesAreSpaced(steps: seq<Step>, i: nat, j: nat, e: nat)
    requires i < j && LosesAt(steps, i, e) && LosesAt(steps, j, e)
    ensures Clock(steps[..j]) - Clock(steps[..i]) >= 2.0
    decreases j - i
  {
    if k: nat :| i < k < j && LosesAt(steps, k, e) {
      LossesAreSpaced(steps, i, k, e);
      ClockGrows(steps, k, j);
    } else {
      GuardedSince(steps, i, j, e);
      RunKeeps(steps[..j]);
      GuardedKeepsLife(Run(steps[..j]), e, Clock(steps[..j]) - Clock(steps[..i]));
    }
  }

  // The number of lives.

  function Losses(steps: seq<Step>, i: nat, j: nat, e: nat): nat
    requires i <= j <= |steps|
    decreases j
  {
    if i == j then 0 else Losses(steps, i, j - 1, e) + if LosesAt(steps, j - 1, e) then 1 else 0
  }

  lemma LivesStep(w: World, step: Step, e: nat)
    requires Inv(w) && e in w.ents
    ensures var v := Apply(w, step);
      var loses := step.Lives? && step.dt >= 0.0 && e in w.valid && LosesLife(At(w, e));
      && e in v.ents && (e in v.valid ==> e in w.valid)
      && (e in v.valid ==> At(v, e).lives == if loses then Some(At(w, e).lives.value - 1) else At(w, e).lives)
      && (loses ==> (e in v.valid <==> At(w, e).lives.value > 1))
  {
    assert e < w.next;
    if step.Collisions? && IsView(w, step.order) {
      CollidedKeeps(w, step.order, step.friendlyFire, step.lucky);
      assert Changed(w.ents[e], Apply(w, step).ents[e]);
    }
  }

  lemma LivesNext(steps: seq<Step>, m: nat, e: nat)
    requires m < |steps| && e in Run(steps[..m]).ents
    ensures var w, v := Run(steps[..m]), Run(steps[..m + 1]);
      && e in v.ents && (e in v.valid ==> e in w.valid)
      && (e in v.valid && !LosesAt(steps, m, e) ==> At(v, e).lives == At(w, e).lives)
      && (LosesAt(steps, m, e) ==>
            && At(w, e).lives.Some? && (e in v.valid <==> At(w, e).lives.value > 1)
            && (e in v.valid ==> At(v, e).lives == Some(At(w, e).lives.value - 1)))
  {
    RunKeeps(steps[..m]);
    ClockStep(steps, m);
    LivesStep(Run(steps[..m]), steps[m], e);
  }

  lemma {:induction false} LivesLeft(steps: seq<Step>, i: nat, j: nat, e: nat, n: int)
    requires i <= j <= |steps| && e in Run(steps[..i]).ents && At(Run(steps[..i]), e).lives == Some(n)
    ensures var w := Run(steps[..j]);
      e in w.ents && (e in w.valid ==> At(w, e).lives == Some(n - Losses(steps, i, j, e)))
    decreases j
  {
    if i < j {
      LivesLeft(steps, i, j - 1, e, n);
      LivesNext(steps, j - 1, e);
    }
  }

  /** A player that starts with `n` lives has lost fewer for as long as it lives, has the rest
      left, and is destroyed by the loss that makes up the number, not before. */
  lemma LivesCountDown(steps: seq<Step>, i: nat, j: nat, e: nat, n: int)
    requires i <= j <= |steps| && e in Run(steps[..i]).ents && At(Run(steps[..i]), e).lives == Some(n)
    ensures var w := Run(steps[..j]);
      && e in w.ents
      && (e in w.valid ==> At(w, e).lives == Some(n - Losses(steps, i, j, e)) && Losses(steps, i, j, e) < n)
    ensures LosesAt(steps, j, e) ==>
      (e !in Run(steps[..j + 1]).valid <==> Losses(steps, i, j + 1, e) == n)
  {
    var w := Run(steps[..j]);
    LivesLeft(steps, i, j, e, n);
    RunKeeps(steps[..j]);
    assert e in w.valid ==> Sound(At(w, e));
    if LosesAt(steps, j, e) {
      LivesNext(steps, j, e);
    }
  }

  /** The shield also runs down in the update that raises it: after a step of two seconds or more
      the player can be hit at once. So the first update's own time has to be counted. */
  lemma LongStepLeavesNoShield(w: World, e: nat, dt: real)
    requires Inv(w) && e in w.valid && LosesLife(At(w, e)) && !Dies(At(w, e)) && dt >= 0.0
    ensures e in Lived(w, dt).valid
    ensures Active(At(Lived(w, dt), e)) <==> dt >= 2.0
  {
    assert Sound(At(w, e));
  }
}
