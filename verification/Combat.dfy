/** What happens when entities meet, and when a player runs out of hit points
    (ecs/src/systems/CollisionSystem.cpp, ecs/src/systems/LivesSystem.cpp). The registry is taken
    by its meaning: the components of a destroyed entity stay readable. */
module Combat {
  import opened Common
  import PushOut
  import SpawnSystem
  import Text

  datatype Layer = NoLayer | Player | Enemy | PlayerProjectile | EnemyProjectile | PowerUp | Obstacle | Companion
  datatype PowerUpKind = HealthUp | ForcePod

  datatype Point = Point(x: real, y: real)
  datatype Size = Size(w: real, h: real)
  datatype Collidable = Collidable(layer: Layer, active: bool)
  datatype Health = Health(hp: int, maxHp: int)

  /** The components that the rules look at; `owner` is the projectile's, `shield` the time left
      of invincibility. */
  datatype Entity = Entity(pos: Option<Point>, vel: Option<Point>, size: Option<Size>, collidable: Option<Collidable>,
                           health: Option<Health>, lives: Option<int>, shield: Option<real>,
                           tag: Option<string>, parent: Option<nat>, powerUp: Option<PowerUpKind>, owner: Option<nat>,
                           score: bool, scoreEvent: Option<int>, stage: Option<nat>)

  /** One who took part in a collision, as it then was. */
  datatype Party = Party(id: nat, layer: Layer, charged: bool)

  /** One collision handled, with the entities it destroyed. */
  datatype Hit = Hit(first: Party, second: Party, killed: set<nat>)

  /** `hits` records every collision handled so far; the rules do not read it. */
  datatype World = World(next: nat, valid: set<nat>, ents: map<nat, Entity>, spawner: SpawnSystem.Spawner,
                         hits: seq<Hit>)

  const BLANK := Entity(None, None, None, None, None, None, None, None, None, None, None, false, None, None)
  const EMPTY := World(0, {}, map[], SpawnSystem.FIRST, [])
  const MAX_PODS := 2
  const SHIELD_TIME := 2.0

  // Entities.

  function At(w: World, e: nat): Entity {
    if e in w.ents then w.ents[e] else BLANK
  }

  function Put(w: World, e: nat, c: Entity): World {
    w.(ents := w.ents[e := c])
  }

  function Create(w: World, c: Entity): World {
    w.(next := w.next + 1, valid := w.valid + {w.next}, ents := w.ents[w.next := c])
  }

  function Destroy(w: World, e: nat): World {
    w.(valid := w.valid - {e})
  }

  function SetHp(w: World, e: nat, hp: int): World {
    if At(w, e).health.None? then w else Put(w, e, At(w, e).(health := Some(At(w, e).health.value.(hp := hp))))
  }

  predicate Solid(c: Entity) {
    c.pos.Some? && c.size.Some? && c.collidable.Some?
  }

  predicate Active(c: Entity) {
    c.collidable.Some? && c.collidable.value.active
  }

  predicate On(c: Entity, layer: Layer) {
    c.collidable.Some? && c.collidable.value.layer == layer
  }

  function LayerOf(c: Entity): Layer {
    if c.collidable.Some? then c.collidable.value.layer else NoLayer
  }

  function BoxOf(c: Entity): PushOut.Box
    requires Solid(c)
  {
    PushOut.Box(c.pos.value.x, c.pos.value.y, c.size.value.w, c.size.value.h)
  }

  /** A charged projectile is known by its tag. */
  predicate Charged(c: Entity) {
    c.tag.Some? && Text.Contains(c.tag.value, "charge")
  }

  /** The force pods a player owns. */
  function PodsOf(w: World, owner: nat): set<nat> {
    set e | e in w.valid && At(w, e).tag == Some("ForcePod") && At(w, e).parent == Some(owner)
  }

  function Items(w: World): set<nat> {
    set e | e in w.valid && At(w, e).tag == Some("ForcePodItem")
  }

  function Item(at: Point): Entity {
    BLANK.(pos := Some(at), vel := Some(Point(-50.0, 0.0)), size := Some(Size(64.0, 64.0)),
           collidable := Some(Collidable(PowerUp, true)), powerUp := Some(ForcePod), tag := Some("ForcePodItem"))
  }

  /** The first pod flies above its player, the second below. */
  function Pod(at: Option<Point>, owner: nat, first: bool): Entity {
    var p := if at.Some? then at.value else Point(0.0, 0.0);
    BLANK.(pos := Some(Point(p.x, p.y + if first then -50.0 else 100.0)), vel := Some(Point(0.0, 0.0)),
           size := Some(Size(64.0, 64.0)), collidable := Some(Collidable(Companion, true)),
           parent := Some(owner), tag := Some("ForcePod"))
  }

  // What each kind of collision does.

  /** Damage to a player; a player without lives dies of it at once. */
  function Hurt(w: World, p: nat, damage: int): World {
    var c := At(w, p);
    if c.health.None? || c.health.value.hp <= 0 then w
    else
      var hp := c.health.value.hp - damage;
      var w' := SetHp(w, p, hp);
      if hp <= 0 && c.lives.None? then Destroy(w', p) else w'
  }

  /** Damage that never destroys: players running into each other. */
  function Bruise(w: World, p: nat, damage: int): World {
    var c := At(w, p);
    if c.health.None? || c.health.value.hp <= 0 then w else SetHp(w, p, c.health.value.hp - damage)
  }

  predicate IsBoss(c: Entity) {
    c.tag == Some("Boss_1") || c.tag == Some("Boss_2")
  }

  function StageNotice(stage: nat): Entity {
    BLANK.(stage := Some(stage))
  }

  function ClearStage(w: World, e: nat): World {
    if At(w, e).tag == Some("Boss_1") then
      Create(w, StageNotice(1)).(spawner := SpawnSystem.AdvanceLevel(w.spawner))
    else if At(w, e).tag == Some("Boss_2") then Create(w, StageNotice(2))
    else w
  }

  function Reward(w: World, scorer: nat, boss: bool): World {
    if scorer != 0 && scorer in w.valid && At(w, scorer).score then
      Put(w, scorer, At(w, scorer).(scoreEvent := Some(if boss then 1000 else 100)))
    else w
  }

  function Drop(w: World, e: nat, scorer: nat, lucky: set<nat>): World {
    if At(w, e).pos.Some? && e in lucky && (scorer == 0 || |PodsOf(w, scorer)| < MAX_PODS) then
      Create(w, Item(At(w, e).pos.value))
    else w
  }

  /** An enemy out of hit points; the `lucky` ones may leave a force pod behind. */
  function Slain(w: World, e: nat, scorer: nat, lucky: set<nat>): World {
    var boss := IsBoss(At(w, e));
    var w1 := Reward(ClearStage(w, e), scorer, boss);
    var w2 := if boss then w1 else Drop(w1, e, scorer, lucky);
    Destroy(Create(w2, BLANK), e)
  }

  function Scorer(c: Entity): nat {
    if c.owner.Some? then c.owner.value else 0
  }

  function Spent(w: World, s: nat): World {
    if Charged(At(w, s)) then w else Destroy(w, s)
  }

  function Struck(w: World, e: nat, scorer: nat, lucky: set<nat>): World {
    var h := At(w, e).health;
    if h.None? then w
    else if h.value.hp - 25 <= 0 then Slain(SetHp(w, e, h.value.hp - 25), e, scorer, lucky)
    else SetHp(w, e, h.value.hp - 25)
  }

  /** Only a charged projectile outlives a hit. */
  function Shot(w: World, s: nat, e: nat, lucky: set<nat>): World {
    Struck(Spent(w, s), e, Scorer(At(w, s)), lucky)
  }

  /** A player takes a force pod: at most two fly with one player, and with the second all pods
      still lying about disappear. */
  function WithPod(w: World, p: nat): World {
    var w1 := Create(w, BLANK);
    var n := |PodsOf(w1, p)|;
    if n >= MAX_PODS then w1
    else
      var w2 := Put(w1, w.next, Pod(At(w, p).pos, p, n == 0));
      if n == 1 then w2.(valid := w2.valid - Items(w2)) else w2
  }

  function Heal(w: World, p: nat): World {
    var h := At(w, p).health;
    if h.None? then w else SetHp(w, p, if h.value.hp + 30 > h.value.maxHp then h.value.maxHp else h.value.hp + 30)
  }

  function Collected(w: World, p: nat, u: nat): World {
    if At(w, u).powerUp == Some(ForcePod) then Destroy(WithPod(w, p), u)
    else Destroy(Create(Heal(w, p), BLANK), u)
  }

  function Pushed(w: World, p: nat, o: nat): World {
    var c, d := At(w, p), At(w, o);
    if c.pos.None? || c.size.None? || d.pos.None? || d.size.None? then w
    else
      var box := PushOut.Push(PushOut.Box(c.pos.value.x, c.pos.value.y, c.size.value.w, c.size.value.h),
                              PushOut.Box(d.pos.value.x, d.pos.value.y, d.size.value.w, d.size.value.h));
      Put(w, p, c.(pos := Some(Point(box.x, box.y))))
  }

  function Crushed(w: World, e: nat): World {
    var h := At(w, e).health;
    if h.None? then w
    else if h.value.hp - 100000 <= 0 then Destroy(SetHp(w, e, h.value.hp - 100000), e)
    else SetHp(w, e, h.value.hp - 100000)
  }

  /** One collision, by the layers of the two. */
  function Handled(w: World, a: nat, b: nat, la: Layer, lb: Layer, lucky: set<nat>): World {
    match (la, lb)
    case (Player, Enemy) => Hurt(w, a, 10)
    case (Enemy, Player) => Hurt(w, b, 10)
    case (PlayerProjectile, Enemy) => Shot(w, a, b, lucky)
    case (Enemy, PlayerProjectile) => Shot(w, b, a, lucky)
    case (EnemyProjectile, Player) => Hurt(Destroy(w, a), b, 20)
    case (Player, EnemyProjectile) => Hurt(Destroy(w, b), a, 20)
    case (Player, PowerUp) => Collected(w, a, b)
    case (PowerUp, Player) => Collected(w, b, a)
    case (Companion, Enemy) => Crushed(w, b)
    case (Enemy, Companion) => Crushed(w, a)
    case (Player, Obstacle) => Pushed(w, a, b)
    case (Obstacle, Player) => Pushed(w, b, a)
    case (PlayerProjectile, Obstacle) => Destroy(w, a)
    case (Obstacle, PlayerProjectile) => Destroy(w, b)
    case (PlayerProjectile, EnemyProjectile) => Destroy(Spent(w, a), b)
    case (EnemyProjectile, PlayerProjectile) => Destroy(Spent(w, b), a)
    case (Player, Player) => Bruise(Bruise(w, a, 10), b, 10)
    case (PlayerProjectile, Player) => Hurt(Destroy(w, a), b, 15)
    case (Player, PlayerProjectile) => Hurt(Destroy(w, b), a, 15)
    case _ => w
  }

  // The pair loop.

  predicate ShouldCollide(a: Layer, b: Layer, friendlyFire: bool) {
    match (a, b)
    case (NoLayer, _) => false
    case (_, NoLayer) => false
    case (Obstacle, _) => true
    case (_, Obstacle) => true
    case (Player, Player) => friendlyFire
    case (Player, PlayerProjectile) => friendlyFire
    case (PlayerProjectile, Player) => friendlyFire
    case (Player, _) => b == Enemy || b == EnemyProjectile || b == PowerUp
    case (_, Player) => a == Enemy || a == EnemyProjectile || a == PowerUp
    case (PlayerProjectile, _) => b == Enemy || b == EnemyProjectile
    case (_, PlayerProjectile) => a == Enemy || a == EnemyProjectile
    case _ => false
  }

  predicate Takes(w: World, e: nat) {
    e in w.valid && Solid(At(w, e)) && Active(At(w, e))
  }

  predicate Collide(w: World, a: nat, b: nat, friendlyFire: bool) {
    && Takes(w, b) && Solid(At(w, a))
    && ShouldCollide(LayerOf(At(w, a)), LayerOf(At(w, b)), friendlyFire)
    && PushOut.Overlaps(BoxOf(At(w, a)), BoxOf(At(w, b)))
  }

  function PartyOf(w: World, e: nat): Party {
    Party(e, LayerOf(At(w, e)), Charged(At(w, e)))
  }

  function Logged(w: World, a: nat, b: nat, w': World): World {
    w'.(hits := w.hits + [Hit(PartyOf(w, a), PartyOf(w, b), w.valid - w'.valid)])
  }

  function Meet(w: World, a: nat, b: nat, friendlyFire: bool, lucky: set<nat>): World {
    if !Collide(w, a, b, friendlyFire) then w
    else Logged(w, a, b, Handled(w, a, b, LayerOf(At(w, a)), LayerOf(At(w, b)), lucky))
  }

  /** One entity against those after it, until it is destroyed. */
  function Against(w: World, a: nat, rest: seq<nat>, friendlyFire: bool, lucky: set<nat>): World
    decreases |rest|
  {
    if rest == [] || a !in w.valid then w
    else Against(Meet(w, a, rest[0], friendlyFire, lucky), a, rest[1..], friendlyFire, lucky)
  }

  function Collided(w: World, order: seq<nat>, friendlyFire: bool, lucky: set<nat>): World
    decreases |order|
  {
    if order == [] then w
    else
      var w' := if Takes(w, order[0]) then Against(w, order[0], order[1..], friendlyFire, lucky) else w;
      Collided(w', order[1..], friendlyFire, lucky)
  }

  /** A view: some order of the live entities that have place, size and layer. */
  predicate IsView(w: World, order: seq<nat>) {
    && (forall i :: 0 <= i < |order| ==> order[i] in w.valid && Solid(At(w, order[i])))
    && (forall i, j :: 0 <= i < j < |order| ==> order[i] != order[j])
    && (forall e :: e in w.valid && Solid(At(w, e)) ==> e in order)
  }

  // Lives.

  predicate LosesLife(c: Entity) {
    c.health.Some? && c.lives.Some? && c.pos.Some? && c.health.value.hp <= 0
  }

  predicate Dies(c: Entity) {
    LosesLife(c) && c.lives.value - 1 <= 0
  }

  function AfterLoss(c: Entity): Entity {
    if !LosesLife(c) then c
    else if Dies(c) then c.(lives := Some(c.lives.value - 1))
    else c.(lives := Some(c.lives.value - 1), health := Some(c.health.value.(hp := c.health.value.maxHp)),
            vel := if c.vel.Some? then Some(Point(0.0, 0.0)) else None,
            collidable := if c.collidable.Some? then Some(c.collidable.value.(active := false)) else None,
            shield := Some(SHIELD_TIME))
  }

  function AfterTimer(c: Entity, dt: real): Entity {
    if c.shield.None? then c
    else if c.shield.value - dt <= 0.0 then
      c.(shield := None, collidable := if c.collidable.Some? then Some(c.collidable.value.(active := true)) else None)
    else c.(shield := Some(c.shield.value - dt))
  }

  function Lived1(c: Entity, dt: real): Entity {
    if Dies(c) then AfterLoss(c) else AfterTimer(AfterLoss(c), dt)
  }

  /** What `LivesSystem` does, entity by entity: no order matters. */
  function Lived(w: World, dt: real): World {
    w.(valid := (set e | e in w.valid && !Dies(At(w, e))),
       ents := map e | e in w.ents :: if e in w.valid then Lived1(w.ents[e], dt) else w.ents[e])
  }
}
