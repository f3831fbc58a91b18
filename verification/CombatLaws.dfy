/** What one collision, one pair loop and one `LivesSystem` step keep. */
module CombatLaws {
  import opened Common
  import opened Combat
  import SpawnSystem

  /** Entity ids are issued in order. */
  ghost predicate Ids(w: World) {
    (forall e: nat :: e in w.ents <==> e < w.next) && (forall e: nat :: e in w.valid ==> e < w.next)
  }

  /** The rules about one live entity: hit points stay above -20 for a player and above 0 for an
      enemy; only a player with lives is ever inactive, then its shield has time left and its hit
      points are positive. */
  predicate Sound(c: Entity) {
    && (c.health.Some? && On(c, Player) ==> -20 < c.health.value.hp <= c.health.value.maxHp && c.health.value.maxHp > 0)
    && (c.health.Some? && On(c, Enemy) ==> c.health.value.hp > 0)
    && (c.lives.Some? ==> On(c, Player) && c.health.Some? && c.pos.Some? && c.lives.value > 0)
    && (c.shield.Some? <==> c.collidable.Some? && !c.collidable.value.active)
    && (c.shield.Some? ==> c.lives.Some? && c.shield.value > 0.0 && c.health.Some? && c.health.value.hp > 0)
  }

  /** What a collision may change of an entity; nothing of its hit points while it is inactive. */
  predicate Changed(c: Entity, d: Entity) {
    && d == c.(pos := d.pos, health := d.health, scoreEvent := d.scoreEvent)
    && c.pos.Some? == d.pos.Some? && c.health.Some? == d.health.Some?
    && (c.health.Some? ==> c.health.value.maxHp == d.health.value.maxHp)
    && (!Active(c) ==> c.health == d.health)
  }

  /** No entity comes back, none is forgotten, and roles stay. */
  ghost predicate Later(w: World, v: World) {
    && w.next <= v.next
    && (forall e: nat :: e in v.valid ==> e in w.valid || w.next <= e)
    && (forall e: nat :: e in w.ents ==> e in v.ents && Changed(w.ents[e], v.ents[e]))
  }

  predicate PodsBound(w: World, owner: nat) {
    |PodsOf(w, owner)| <= MAX_PODS
  }

  /** Every live entity but `x` is sound, and no player has more than two pods. */
  ghost predicate StateOk(w: World, x: set<nat>) {
    && Ids(w)
    && (forall e: nat :: e in w.valid && e !in x ==> Sound(At(w, e)))
    && (forall p: nat :: PodsBound(w, p))
  }

  lemma LaterTrans(u: World, v: World, w: World)
    requires Later(u, v) && Later(v, w)
    ensures Later(u, w)
  {
    forall e: nat | e in u.ents
      ensures e in w.ents && Changed(u.ents[e], w.ents[e])
    {
      assert Changed(u.ents[e], v.ents[e]) && Changed(v.ents[e], w.ents[e]);
    }
  }

  lemma LaterSame(w: World)
    ensures Later(w, w)
  {
  }

  /** A set of pods that does not grow stays within the bound. */
  lemma FewerPods(w: World, v: World)
    requires forall p: nat :: PodsBound(w, p)
    requires forall p: nat :: PodsOf(v, p) <= PodsOf(w, p)
    ensures forall p: nat :: PodsBound(v, p)
  {
    forall p: nat
      ensures PodsBound(v, p)
    {
      assert PodsBound(w, p) && PodsOf(v, p) <= PodsOf(w, p);
      var more := PodsOf(w, p) - PodsOf(v, p);
      assert PodsOf(w, p) == PodsOf(v, p) + more;
    }
  }

  // The primitive steps.

  lemma DestroyKeeps(w: World, gone: set<nat>, x: set<nat>)
    requires StateOk(w, x)
    ensures var v := w.(valid := w.valid - gone); StateOk(v, x - gone) && Later(w, v)
  {
    var v := w.(valid := w.valid - gone);
    FewerPods(w, v);
    forall e: nat | e in v.valid && e !in x - gone
      ensures Sound(At(v, e))
    {
      assert Sound(At(w, e));
    }
  }

  lemma PutKeeps(w: World, e: nat, c: Entity, x: set<nat>)
    requires StateOk(w, x) && e in w.ents && Changed(w.ents[e], c)
    requires e in w.valid && e !in x ==> Sound(c)
    ensures StateOk(Put(w, e, c), x) && Later(w, Put(w, e, c))
  {
    var v := Put(w, e, c);
    FewerPods(w, v);
    forall d: nat | d in v.valid && d !in x
      ensures Sound(At(v, d))
    {
      assert Sound(At(w, d)) || d == e;
    }
  }

  lemma CreateKeeps(w: World, c: Entity, x: set<nat>)
    requires StateOk(w, x) && Sound(c) && c.tag != Some("ForcePod")
    ensures StateOk(Create(w, c), x) && Later(w, Create(w, c))
    ensures forall p: nat :: PodsOf(Create(w, c), p) == PodsOf(w, p)
  {
    var v := Create(w, c);
    forall p: nat
      ensures PodsOf(v, p) == PodsOf(w, p)
    {
    }
    FewerPods(w, v);
    forall d: nat | d in v.valid && d !in x
      ensures Sound(At(v, d))
    {
      assert Sound(At(w, d)) || d == w.next;
    }
  }

  lemma SpawnerKeeps(w: World, sp: SpawnSystem.Spawner, x: set<nat>)
    requires StateOk(w, x)
    ensures StateOk(w.(spawner := sp), x) && Later(w, w.(spawner := sp))
  {
    FewerPods(w, w.(spawner := sp));
    assert forall e: nat :: At(w.(spawner := sp), e) == At(w, e);
  }

  lemma HpKeeps(w: World, e: nat, hp: int, x: set<nat>)
    requires StateOk(w, x) && e in w.ents && w.ents[e].health.Some? && Active(w.ents[e])
    requires e in w.valid && e !in x ==> Sound(w.ents[e].(health := Some(w.ents[e].health.value.(hp := hp))))
    ensures StateOk(SetHp(w, e, hp), x) && Later(w, SetHp(w, e, hp))
  {
    PutKeeps(w, e, w.ents[e].(health := Some(w.ents[e].health.value.(hp := hp))), x);
  }

  // The kinds of collision.

  /** A live, active entity in its layer. */
  predicate Is(w: World, e: nat, layer: Layer) {
    Takes(w, e) && On(At(w, e), layer) && e in w.ents
  }

  ghost predicate Kept(w: World, v: World) {
    StateOk(v, {}) && Later(w, v)
  }

  lemma HurtKeeps(w: World, p: nat, damage: int)
    requires StateOk(w, {}) && Is(w, p, Player) && damage <= 20 && 0 <= damage
    ensures Kept(w, Hurt(w, p, damage))
  {
    LaterSame(w);
    var c := At(w, p);
    assert Sound(c);
    if c.health.Some? && c.health.value.hp > 0 {
      var hp := c.health.value.hp - damage;
      HpKeeps(w, p, hp, {});
      if hp <= 0 && c.lives.None? {
        DestroyKeeps(SetHp(w, p, hp), {p}, {});
        LaterTrans(w, SetHp(w, p, hp), Hurt(w, p, damage));
      }
    }
  }

  lemma BruiseKeeps(w: World, p: nat)
    requires StateOk(w, {}) && Is(w, p, Player)
    ensures Kept(w, Bruise(w, p, 10))
  {
    LaterSame(w);
    var c := At(w, p);
    assert Sound(c);
    if c.health.Some? && c.health.value.hp > 0 {
      HpKeeps(w, p, c.health.value.hp - 10, {});
    }
  }

  lemma HealKeeps(w: World, p: nat)
    requires StateOk(w, {}) && Is(w, p, Player)
    ensures Kept(w, Heal(w, p))
  {
    LaterSame(w);
    var h := At(w, p).health;
    assert Sound(At(w, p));
    if h.Some? {
      HpKeeps(w, p, if h.value.hp + 30 > h.value.maxHp then h.value.maxHp else h.value.hp + 30, {});
    }
  }

  /** Destroying first what will be hurt next. */
  lemma DestroyFirst(w: World, s: nat, p: nat)
    requires StateOk(w, {}) && Is(w, p, Player) && s != p
    ensures Kept(w, Destroy(w, s)) && Is(Destroy(w, s), p, Player)
  {
    DestroyKeeps(w, {s}, {});
    assert {} - {s} == {};
    assert Destroy(w, s) == w.(valid := w.valid - {s});
  }

  lemma HurtByKeeps(w: World, s: nat, p: nat, damage: int)
    requires StateOk(w, {}) && Is(w, p, Player) && s != p && 0 <= damage <= 20
    ensures Kept(w, Hurt(Destroy(w, s), p, damage)) && s !in Hurt(Destroy(w, s), p, damage).valid
  {
    DestroyFirst(w, s, p);
    HurtKeeps(Destroy(w, s), p, damage);
    LaterTrans(w, Destroy(w, s), Hurt(Destroy(w, s), p, damage));
  }

  lemma ClearStageKeeps(w: World, e: nat, x: set<nat>)
    requires StateOk(w, x)
    ensures StateOk(ClearStage(w, e), x) && Later(w, ClearStage(w, e))
  {
    LaterSame(w);
    if At(w, e).tag == Some("Boss_1") {
      var v := Create(w, StageNotice(1));
      CreateKeeps(w, StageNotice(1), x);
      SpawnerKeeps(v, SpawnSystem.AdvanceLevel(w.spawner), x);
      LaterTrans(w, v, ClearStage(w, e));
    } else if At(w, e).tag == Some("Boss_2") {
      CreateKeeps(w, StageNotice(2), x);
    }
  }

  lemma RewardKeeps(w: World, scorer: nat, boss: bool, x: set<nat>)
    requires StateOk(w, x)
    ensures StateOk(Reward(w, scorer, boss), x) && Later(w, Reward(w, scorer, boss))
  {
    LaterSame(w);
    if scorer in w.ents {
      assert scorer in w.valid && scorer !in x ==> Sound(At(w, scorer));
      var c := At(w, scorer).(scoreEvent := Some(if boss then 1000 else 100));
      PutKeeps(w, scorer, c, x);
    }
  }

  lemma DropKeeps(w: World, e: nat, scorer: nat, lucky: set<nat>, x: set<nat>)
    requires StateOk(w, x)
    ensures StateOk(Drop(w, e, scorer, lucky), x) && Later(w, Drop(w, e, scorer, lucky))
  {
    LaterSame(w);
    if At(w, e).pos.Some? {
      CreateKeeps(w, Item(At(w, e).pos.value), x);
    }
  }

  /** The dying enemy itself may have no hit points left. */
  lemma SlainKeeps(w: World, e: nat, scorer: nat, lucky: set<nat>)
    requires StateOk(w, {e})
    ensures Kept(w, Slain(w, e, scorer, lucky)) && e !in Slain(w, e, scorer, lucky).valid
  {
    var boss := IsBoss(At(w, e));
    var w1 := ClearStage(w, e);
    var w2 := Reward(w1, scorer, boss);
    var w3 := if boss then w2 else Drop(w2, e, scorer, lucky);
    var w4 := Create(w3, BLANK);
    ClearStageKeeps(w, e, {e});
    RewardKeeps(w1, scorer, boss, {e});
    LaterTrans(w, w1, w2);
    DropKeeps(w2, e, scorer, lucky, {e});
    LaterSame(w2);
    LaterTrans(w, w2, w3);
    CreateKeeps(w3, BLANK, {e});
    LaterTrans(w, w3, w4);
    DestroyKeeps(w4, {e}, {e});
    LaterTrans(w, w4, Destroy(w4, e));
    assert {e} - {e} == {};
  }

  lemma SpentKeeps(w: World, s: nat)
    requires StateOk(w, {})
    ensures Kept(w, Spent(w, s)) && (!Charged(At(w, s)) ==> s !in Spent(w, s).valid)
    ensures Spent(w, s).ents == w.ents && Spent(w, s).next == w.next && Spent(w, s).valid <= w.valid
    ensures w.valid - {s} <= Spent(w, s).valid
  {
    LaterSame(w);
    DestroyKeeps(w, {s}, {});
    assert {} - {s} == {};
  }

  lemma KillKeeps(w: World, e: nat, hp: int, scorer: nat, lucky: set<nat>)
    requires StateOk(w, {}) && Is(w, e, Enemy) && At(w, e).health.Some?
    ensures var v := Slain(SetHp(w, e, hp), e, scorer, lucky); Kept(w, v) && e !in v.valid
  {
    var v := SetHp(w, e, hp);
    assert StateOk(w, {e});
    HpKeeps(w, e, hp, {e});
    SlainKeeps(v, e, scorer, lucky);
    LaterTrans(w, v, Slain(v, e, scorer, lucky));
  }

  lemma WoundKeeps(w: World, e: nat, hp: int)
    requires StateOk(w, {}) && Is(w, e, Enemy) && At(w, e).health.Some? && hp > 0
    ensures Kept(w, SetHp(w, e, hp))
  {
    assert Sound(At(w, e));
    HpKeeps(w, e, hp, {});
  }

  lemma StruckKeeps(w: World, e: nat, scorer: nat, lucky: set<nat>)
    requires StateOk(w, {}) && Is(w, e, Enemy)
    ensures Kept(w, Struck(w, e, scorer, lucky))
  {
    var h := At(w, e).health;
    if h.None? {
      LaterSame(w);
      return;
    }
    var hp := h.value.hp - 25;
    if hp <= 0 {
      assert Struck(w, e, scorer, lucky) == Slain(SetHp(w, e, hp), e, scorer, lucky);
      KillKeeps(w, e, hp, scorer, lucky);
    } else {
      WoundKeeps(w, e, hp);
    }
  }

  lemma ShotKeeps(w: World, s: nat, e: nat, lucky: set<nat>)
    requires StateOk(w, {}) && Is(w, e, Enemy) && s in w.ents && s != e
    ensures Kept(w, Shot(w, s, e, lucky)) && (!Charged(At(w, s)) ==> s !in Shot(w, s, e, lucky).valid)
  {
    var w1 := Spent(w, s);
    SpentKeeps(w, s);
    StruckKeeps(w1, e, Scorer(At(w, s)), lucky);
    LaterTrans(w, w1, Shot(w, s, e, lucky));
  }

  // Force pods.

  lemma PutPod(w: World, pod: nat, p: nat, c: Entity)
    requires StateOk(w, {}) && pod in w.ents && w.ents[pod] == BLANK && |PodsOf(w, p)| < MAX_PODS
    requires Sound(c) && c.tag == Some("ForcePod") && c.parent == Some(p)
    ensures StateOk(Put(w, pod, c), {})
  {
    var v := Put(w, pod, c);
    forall q: nat
      ensures PodsBound(v, q)
    {
      assert PodsBound(w, q);
      if q == p {
        assert PodsOf(v, q) <= PodsOf(w, q) + {pod};
        Subset(PodsOf(v, q), PodsOf(w, q) + {pod});
      } else {
        assert PodsOf(v, q) == PodsOf(w, q);
      }
    }
    forall d: nat | d in v.valid
      ensures Sound(At(v, d))
    {
      assert Sound(At(w, d)) || d == pod;
    }
  }

  lemma WithPodKeeps(w: World, p: nat)
    requires StateOk(w, {})
    ensures Kept(w, WithPod(w, p))
  {
    var w1 := Create(w, BLANK);
    CreateKeeps(w, BLANK, {});
    if |PodsOf(w1, p)| < MAX_PODS {
      var first := |PodsOf(w1, p)| == 0;
      var w2 := Put(w1, w.next, Pod(At(w, p).pos, p, first));
      PutPod(w1, w.next, p, Pod(At(w, p).pos, p, first));
      assert Later(w, w2);
      if !first {
        DestroyKeeps(w2, Items(w2), {});
        assert {} - Items(w2) == {};
        LaterTrans(w, w2, w2.(valid := w2.valid - Items(w2)));
      }
    }
  }

  lemma CollectedKeeps(w: World, p: nat, u: nat)
    requires StateOk(w, {}) && Is(w, p, Player)
    ensures Kept(w, Collected(w, p, u)) && u !in Collected(w, p, u).valid
  {
    var v := if At(w, u).powerUp == Some(ForcePod) then WithPod(w, p) else Create(Heal(w, p), BLANK);
    if At(w, u).powerUp == Some(ForcePod) {
      WithPodKeeps(w, p);
    } else {
      HealKeeps(w, p);
      CreateKeeps(Heal(w, p), BLANK, {});
      LaterTrans(w, Heal(w, p), v);
    }
    DestroyKeeps(v, {u}, {});
    assert {} - {u} == {};
    LaterTrans(w, v, Destroy(v, u));
  }

  lemma PushedKeeps(w: World, p: nat, o: nat)
    requires StateOk(w, {}) && Is(w, p, Player)
    ensures Kept(w, Pushed(w, p, o))
  {
    LaterSame(w);
    assert Sound(At(w, p));
    var v := Pushed(w, p, o);
    if v != w {
      PutKeeps(w, p, v.ents[p], {});
    }
  }

  // One collision, whichever it is.

  /** `p` does not survive meeting `q`. */
  predicate Doomed(p: Party, q: Party) {
    match p.layer
    case PlayerProjectile =>
      q.layer == Obstacle || q.layer == Player || ((q.layer == Enemy || q.layer == EnemyProjectile) && !p.charged)
    case EnemyProjectile => q.layer == Player || q.layer == PlayerProjectile
    case PowerUp => q.layer == Player
    case _ => false
  }

  /** It does not matter which of the two comes first. */
  lemma HandledSymmetric(w: World, a: nat, b: nat, la: Layer, lb: Layer, lucky: set<nat>)
    requires a != b
    ensures Handled(w, a, b, la, lb, lucky) == Handled(w, b, a, lb, la, lucky)
  {
    if la == Player && lb == Player {
      BruisesCommute(w, a, b);
    }
  }

  lemma BruisesCommute(w: World, a: nat, b: nat)
    requires a != b
    ensures Bruise(Bruise(w, a, 10), b, 10) == Bruise(Bruise(w, b, 10), a, 10)
  {
    var v, u := Bruise(w, a, 10), Bruise(w, b, 10);
    assert At(v, b) == At(w, b) && At(u, a) == At(w, a);
    assert Bruise(v, b, 10).ents == Bruise(u, a, 10).ents;
  }

  /** The layers that `Handled` lists first, for each kind of collision that can happen. */
  predicate Listed(la: Layer, lb: Layer) {
    match la
    case Player => lb == Enemy || lb == PowerUp || lb == Obstacle || lb == Player
    case PlayerProjectile => lb == Enemy || lb == Obstacle || lb == EnemyProjectile || lb == Player
    case EnemyProjectile => lb == Player
    case _ => false
  }

  ghost predicate Result(w: World, a: nat, b: nat, v: World) {
    && Kept(w, v)
    && (Doomed(PartyOf(w, a), PartyOf(w, b)) ==> a !in v.valid)
    && (Doomed(PartyOf(w, b), PartyOf(w, a)) ==> b !in v.valid)
  }

  lemma PlayerMeets(w: World, a: nat, b: nat, lucky: set<nat>)
    requires StateOk(w, {}) && Takes(w, a) && Takes(w, b) && a != b && LayerOf(At(w, a)) == Player
    requires Listed(Player, LayerOf(At(w, b)))
    ensures Result(w, a, b, Handled(w, a, b, Player, LayerOf(At(w, b)), lucky))
  {
    match LayerOf(At(w, b))
    case Enemy => HurtKeeps(w, a, 10);
    case PowerUp => CollectedKeeps(w, a, b);
    case Obstacle => PushedKeeps(w, a, b);
    case Player =>
      var v := Bruise(w, a, 10);
      BruiseKeeps(w, a);
      assert Is(v, b, Player);
      BruiseKeeps(v, b);
      LaterTrans(w, v, Bruise(v, b, 10));
  }

  /** A player's projectile against an enemy's: the latter is always destroyed. */
  lemma ProjectilesMeet(w: World, s: nat, t: nat)
    requires StateOk(w, {}) && s in w.ents && s != t
    ensures Kept(w, Destroy(Spent(w, s), t)) && (!Charged(At(w, s)) ==> s !in Destroy(Spent(w, s), t).valid)
  {
    var v := Spent(w, s);
    SpentKeeps(w, s);
    DestroyKeeps(v, {t}, {});
    assert {} - {t} == {};
    LaterTrans(w, v, Destroy(v, t));
  }

  lemma JustDestroy(w: World, s: nat)
    requires StateOk(w, {})
    ensures Kept(w, Destroy(w, s))
  {
    DestroyKeeps(w, {s}, {});
    assert {} - {s} == {};
  }

  lemma ProjectileMeets(w: World, a: nat, b: nat, lucky: set<nat>)
    requires StateOk(w, {}) && Takes(w, a) && Takes(w, b) && a != b
    requires var la := LayerOf(At(w, a)); la != Player && Listed(la, LayerOf(At(w, b)))
    ensures Result(w, a, b, Handled(w, a, b, LayerOf(At(w, a)), LayerOf(At(w, b)), lucky))
  {
    match (LayerOf(At(w, a)), LayerOf(At(w, b)))
    case (PlayerProjectile, Enemy) => ShotKeeps(w, a, b, lucky);
    case (PlayerProjectile, Obstacle) => JustDestroy(w, a);
    case (PlayerProjectile, EnemyProjectile) => ProjectilesMeet(w, a, b);
    case (PlayerProjectile, Player) => HurtByKeeps(w, a, b, 15);
    case (EnemyProjectile, Player) => HurtByKeeps(w, a, b, 20);
  }

  lemma HandledKeeps(w: World, a: nat, b: nat, friendlyFire: bool, lucky: set<nat>)
    requires StateOk(w, {}) && Takes(w, a) && Takes(w, b) && a != b
    requires ShouldCollide(LayerOf(At(w, a)), LayerOf(At(w, b)), friendlyFire)
    ensures Result(w, a, b, Handled(w, a, b, LayerOf(At(w, a)), LayerOf(At(w, b)), lucky))
  {
    var la, lb := LayerOf(At(w, a)), LayerOf(At(w, b));
    HandledSymmetric(w, a, b, la, lb, lucky);
    LaterSame(w);
    if la == Player && Listed(la, lb) {
      PlayerMeets(w, a, b, lucky);
    } else if lb == Player && Listed(lb, la) {
      PlayerMeets(w, b, a, lucky);
    } else if Listed(la, lb) {
      ProjectileMeets(w, a, b, lucky);
    } else if Listed(lb, la) {
      ProjectileMeets(w, b, a, lucky);
    }
  }

  // The record of collisions.

  /** Whatever a collision destroyed stays destroyed, and those that were doomed were. */
  predicate HitOk(w: World, h: Hit) {
    && (forall e :: e in h.killed ==> e < w.next && e !in w.valid)
    && (Doomed(h.first, h.second) ==> h.first.id in h.killed)
    && (Doomed(h.second, h.first) ==> h.second.id in h.killed)
  }

  /** Neither of the later collision's parties was destroyed by the earlier one. */
  predicate After(earlier: Hit, later: Hit) {
    later.first.id !in earlier.killed && later.second.id !in earlier.killed
  }

  predicate HitsOk(w: World) {
    && (forall i :: 0 <= i < |w.hits| ==> HitOk(w, w.hits[i]))
    && (forall i, j :: 0 <= i < j < |w.hits| ==> After(w.hits[i], w.hits[j]))
  }

  ghost predicate Inv(w: World) {
    StateOk(w, {}) && HitsOk(w)
  }

  lemma LaterHits(w: World, v: World)
    requires HitsOk(w) && Later(w, v) && v.hits == w.hits
    ensures HitsOk(v)
  {
    forall i | 0 <= i < |v.hits|
      ensures HitOk(v, v.hits[i])
    {
      assert HitOk(w, w.hits[i]);
    }
  }

  lemma MoreHits(w: World, v: World, h: Hit)
    requires HitsOk(w) && v.hits == w.hits && HitsOk(v)
    requires h.first.id in w.valid && h.second.id in w.valid && HitOk(v, h)
    ensures HitsOk(v.(hits := w.hits + [h]))
  {
    var u := v.(hits := w.hits + [h]);
    forall i | 0 <= i < |u.hits|
      ensures HitOk(u, u.hits[i])
    {
      assert HitOk(v, u.hits[i]);
    }
    forall i, j | 0 <= i < j < |u.hits|
      ensures After(u.hits[i], u.hits[j])
    {
      assert HitOk(w, w.hits[i]);
    }
  }

  lemma SameState(w: World, hits: seq<Hit>)
    requires StateOk(w, {})
    ensures StateOk(w.(hits := hits), {})
  {
    var v := w.(hits := hits);
    assert forall e: nat :: At(v, e) == At(w, e);
    FewerPods(w, v);
  }

  /** Between any two pairs of the loop everything is in order. */
  lemma MeetKeeps(w: World, a: nat, b: nat, friendlyFire: bool, lucky: set<nat>)
    requires Inv(w) && Takes(w, a) && a != b
    ensures Inv(Meet(w, a, b, friendlyFire, lucky)) && Later(w, Meet(w, a, b, friendlyFire, lucky))
  {
    LaterSame(w);
    if Collide(w, a, b, friendlyFire) {
      var v0 := Handled(w, a, b, LayerOf(At(w, a)), LayerOf(At(w, b)), lucky);
      HandledKeeps(w, a, b, friendlyFire, lucky);
      LoggedKeeps(w, a, b, v0);
    }
  }

  lemma LoggedKeeps(w: World, a: nat, b: nat, v: World)
    requires Inv(w) && Result(w, a, b, v) && a in w.valid && b in w.valid
    ensures Inv(Logged(w, a, b, v)) && Later(w, Logged(w, a, b, v))
  {
    var h := Hit(PartyOf(w, a), PartyOf(w, b), w.valid - v.valid);
    var v1 := v.(hits := w.hits);
    SameState(v, w.hits + [h]);
    LaterHits(w, v1);
    assert HitOk(v1, h);
    MoreHits(w, v1, h);
    assert v1.(hits := w.hits + [h]) == Logged(w, a, b, v);
  }

  predicate Distinct(order: seq<nat>) {
    forall i, j :: 0 <= i < j < |order| ==> order[i] != order[j]
  }

  lemma {:induction false} AgainstKeeps(w: World, a: nat, rest: seq<nat>, friendlyFire: bool, lucky: set<nat>)
    requires Inv(w) && Takes(w, a) && a !in rest
    ensures Inv(Against(w, a, rest, friendlyFire, lucky)) && Later(w, Against(w, a, rest, friendlyFire, lucky))
    decreases |rest|
  {
    LaterSame(w);
    if rest != [] {
      var v := Meet(w, a, rest[0], friendlyFire, lucky);
      MeetKeeps(w, a, rest[0], friendlyFire, lucky);
      if a in v.valid {
        assert Takes(v, a);
        AgainstKeeps(v, a, rest[1..], friendlyFire, lucky);
        LaterTrans(w, v, Against(v, a, rest[1..], friendlyFire, lucky));
      }
    }
  }

  /** The whole pair loop. */
  lemma {:induction false} CollidedKeeps(w: World, order: seq<nat>, friendlyFire: bool, lucky: set<nat>)
    requires Inv(w) && Distinct(order)
    ensures Inv(Collided(w, order, friendlyFire, lucky)) && Later(w, Collided(w, order, friendlyFire, lucky))
    decreases |order|
  {
    LaterSame(w);
    if order != [] {
      var rest := order[1..];
      var v := if Takes(w, order[0]) then Against(w, order[0], rest, friendlyFire, lucky) else w;
      if Takes(w, order[0]) {
        AgainstKeeps(w, order[0], rest, friendlyFire, lucky);
      }
      CollidedKeeps(v, rest, friendlyFire, lucky);
      LaterTrans(w, v, Collided(v, rest, friendlyFire, lucky));
    }
  }

  // Lives.

  /** A life step leaves one entity sound, whatever the time step. */
  lemma Lived1Sound(c: Entity, dt: real)
    requires Sound(c) && !Dies(c) && dt >= 0.0
    ensures Sound(Lived1(c, dt))
  {
  }

  lemma LivedKeeps(w: World, dt: real)
    requires Inv(w) && dt >= 0.0
    ensures Inv(Lived(w, dt))
  {
    var v := Lived(w, dt);
    forall e: nat | e in v.valid
      ensures Sound(At(v, e))
    {
      assert Sound(At(w, e));
      Lived1Sound(At(w, e), dt);
    }
    forall e: nat
      ensures At(v, e).tag == At(w, e).tag && At(v, e).parent == At(w, e).parent
    {
    }
    FewerPods(w, v);
    forall i | 0 <= i < |v.hits|
      ensures HitOk(v, v.hits[i])
    {
      assert HitOk(w, w.hits[i]);
    }
  }
}
