/** The wave scheduler: which enemy of which wave appears when, with the warning before a boss
    (ecs/src/systems/SpawnSystem.cpp), and the level change that a boss's death causes from
    outside (ecs/src/systems/CollisionSystem.cpp). */
module SpawnSystem {
  import Text

  datatype EnemySpawn = EnemySpawn(kind: string, spawnTime: real)
  datatype Wave = Wave(enemies: seq<EnemySpawn>, duration: real)
  datatype Level = Level(waves: seq<Wave>)

  /** The `EnemySpawner` component. */
  datatype Spawner = Spawner(level: nat, wave: nat, index: nat, waveTimer: real, warning: bool, warningTimer: real)

  /** What one update did, in order. */
  datatype Event = Warned | Spawned(index: nat) | Left(level: nat, wave: nat)

  const WARNING_TIME := 4.0
  const FIRST := Spawner(0, 0, 0, 0.0, false, 0.0)

  predicate BossWave(wave: Wave) {
    wave.enemies != [] && Text.Contains(wave.enemies[0].kind, "Boss")
  }

  datatype Looped = Looped(sp: Spawner, events: seq<Event>, waiting: bool)

  /** A boss heading the first wave is announced before it is due. */
  predicate Raises(wave: Wave, sp: Spawner) {
    sp.wave == 0 && sp.index == 0 && BossWave(wave) && !sp.warning && sp.warningTimer == 0.0
  }

  function Announce(wave: Wave, sp: Spawner): Spawner {
    if Raises(wave, sp) then sp.(warning := true, warningTimer := WARNING_TIME) else sp
  }

  function CountDown(sp: Spawner, dt: real): Spawner {
    if !sp.warning then sp
    else if sp.warningTimer - dt > 0.0 then sp.(warningTimer := sp.warningTimer - dt)
    else sp.(warning := false, warningTimer := 0.0)
  }

  /** The inner loop over the enemies still due in the current wave; `waiting` when it returns
      because a warning is showing. */
  function SpawnDue(wave: Wave, sp: Spawner, dt: real): (l: Looped)
    ensures l.sp.level == sp.level && l.sp.wave == sp.wave && l.sp.waveTimer == sp.waveTimer
    ensures sp.index <= l.sp.index && (sp.index <= |wave.enemies| ==> l.sp.index <= |wave.enemies|)
    decreases |wave.enemies| - sp.index
  {
    if sp.index >= |wave.enemies| then Looped(sp, [], false)
    else
      var raised := if Raises(wave, sp) then [Warned] else [];
      var s := CountDown(Announce(wave, sp), dt);
      if s.warning then Looped(s, raised, true)
      else if s.waveTimer >= wave.enemies[s.index].spawnTime then
        var more := SpawnDue(wave, s.(index := s.index + 1), dt);
        Looped(more.sp, raised + [Spawned(s.index)] + more.events, more.waiting)
      else Looped(s, raised, false)
  }

  /** `all` is the events `done` so far, then what `rest` does. */
  predicate Joins(all: Looped, done: seq<Event>, rest: Looped) {
    all == Looped(rest.sp, done + rest.events, rest.waiting)
  }

  /** One round of the loop. */
  lemma JoinsNext(wave: Wave, sp: Spawner, dt: real, all: Looped, done: seq<Event>)
    requires sp.index < |wave.enemies| && Joins(all, done, SpawnDue(wave, sp, dt))
    ensures var s := CountDown(Announce(wave, sp), dt);
      var raised := done + if Raises(wave, sp) then [Warned] else [];
      if s.warning then all == Looped(s, raised, true)
      else if s.waveTimer < wave.enemies[s.index].spawnTime then all == Looped(s, raised, false)
      else Joins(all, raised + [Spawned(s.index)], SpawnDue(wave, s.(index := s.index + 1), dt))
  {
    var s := CountDown(Announce(wave, sp), dt);
    var raised := if Raises(wave, sp) then [Warned] else [];
    if !s.warning && s.waveTimer >= wave.enemies[s.index].spawnTime {
      var more := SpawnDue(wave, s.(index := s.index + 1), dt).events;
      assert done + (raised + [Spawned(s.index)] + more) == done + raised + [Spawned(s.index)] + more;
    }
  }

  /** The wave (and, after the last one, the level) that follows. */
  function NextWave(levels: seq<Level>, sp: Spawner): Spawner
    requires sp.level < |levels|
  {
    var s := sp.(wave := sp.wave + 1, waveTimer := 0.0, index := 0);
    if s.wave >= |levels[s.level].waves| then
      s.(wave := 0, level := if s.level + 1 >= |levels| then 0 else s.level + 1)
    else s
  }

  function Update(levels: seq<Level>, before: Spawner, dt: real): (Spawner, seq<Event>) {
    var sp := before.(waveTimer := before.waveTimer + dt);
    if sp.level >= |levels| then (sp, [])
    else if sp.wave >= |levels[sp.level].waves| then
      (sp.(level := 0, wave := 0, waveTimer := 0.0, index := 0), [])
    else
      var wave := levels[sp.level].waves[sp.wave];
      var l := SpawnDue(wave, sp, dt);
      if !l.waiting && l.sp.waveTimer >= wave.duration then
        (NextWave(levels, l.sp), l.events + [Left(sp.level, sp.wave)])
      else (l.sp, l.events)
  }

  /** The death of Boss_1 moves on to the next level. */
  function AdvanceLevel(sp: Spawner): Spawner {
    Spawner(sp.level + 1, 0, 0, 0.0, false, 0.0)
  }

  class EnemySpawner {
    var currentLevel: nat
    var currentWave: nat
    var currentEnemyIndex: nat
    var waveTimer: real
    var bossWarningActive: bool
    var bossWarningTimer: real

    function State(): Spawner
      reads this
    {
      Spawner(currentLevel, currentWave, currentEnemyIndex, waveTimer, bossWarningActive, bossWarningTimer)
    }

    constructor ()
      ensures State() == FIRST
    {
      currentLevel, currentWave, currentEnemyIndex := 0, 0, 0;
      waveTimer, bossWarningActive, bossWarningTimer := 0.0, false, 0.0;
    }

    /** The scheduler's step on this component. */
    method Tick(levels: seq<Level>, dt: real) returns (events: seq<Event>)
      modifies this
      ensures (State(), events) == Update(levels, old(State()), dt)
    {
      events := [];
      waveTimer := waveTimer + dt;
      if currentLevel >= |levels| {
        return;
      }
      var level := levels[currentLevel];
      if currentWave >= |level.waves| {
        currentLevel, currentWave, waveTimer, currentEnemyIndex := 0, 0, 0.0, 0;
        return;
      }
      var wave := level.waves[currentWave];
      var waiting;
      events, waiting := SpawnEnemies(wave, dt);
      if waiting {
        return;
      }
      if waveTimer >= wave.duration {
        events := events + [Left(currentLevel, currentWave)];
        currentWave, waveTimer, currentEnemyIndex := currentWave + 1, 0.0, 0;
        if currentWave >= |level.waves| {
          currentLevel, currentWave := currentLevel + 1, 0;
          if currentLevel >= |levels| {
            currentLevel := 0;
          }
        }
      }
    }

    method SpawnEnemies(wave: Wave, dt: real) returns (events: seq<Event>, waiting: bool)
      modifies this
      ensures Looped(State(), events, waiting) == SpawnDue(wave, old(State()), dt)
    {
      events, waiting := [], false;
      ghost var all := SpawnDue(wave, State(), dt);
      while currentEnemyIndex < |wave.enemies|
        invariant Joins(all, events, SpawnDue(wave, State(), dt))
        decreases |wave.enemies| - currentEnemyIndex
      {
        JoinsNext(wave, State(), dt, all, events);
        var raised := AnnounceBoss(wave);
        waiting := CountDownWarning(dt);
        events := events + raised;
        if waiting {
          return;
        }
        if waveTimer >= wave.enemies[currentEnemyIndex].spawnTime {
          events := events + [Spawned(currentEnemyIndex)];
          currentEnemyIndex := currentEnemyIndex + 1;
        } else {
          return;
        }
      }
    }

    method AnnounceBoss(wave: Wave) returns (raised: seq<Event>)
      requires currentEnemyIndex < |wave.enemies|
      modifies this
      ensures State() == Announce(wave, old(State()))
      ensures raised == if Raises(wave, old(State())) then [Warned] else []
    {
      raised := [];
      if currentWave == 0 && currentEnemyIndex == 0 {
        var isBossLevel := Text.Contains(wave.enemies[0].kind, "Boss");
        if isBossLevel && !bossWarningActive && bossWarningTimer == 0.0 {
          bossWarningActive, bossWarningTimer := true, WARNING_TIME;
          raised := [Warned];
        }
      }
    }

    method CountDownWarning(dt: real) returns (waiting: bool)
      modifies this
      ensures State() == CountDown(old(State()), dt) && waiting == State().warning
    {
      waiting := false;
      if bossWarningActive {
        bossWarningTimer := bossWarningTimer - dt;
        if bossWarningTimer <= 0.0 {
          bossWarningActive, bossWarningTimer := false, 0.0;
        } else {
          waiting := true;
        }
      }
    }

    method BossDefeated()
      modifies this
      ensures State() == AdvanceLevel(old(State()))
    {
      currentLevel, currentWave, waveTimer, currentEnemyIndex := currentLevel + 1, 0, 0.0, 0;
      bossWarningActive, bossWarningTimer := false, 0.0;
    }
  }
}
