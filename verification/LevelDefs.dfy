/** The five levels the server ships: which enemy is due when, and how long each wave lasts
    (shared/utils/LevelDefs.hpp). */
module LevelDefs {
  import opened SpawnSystem
  import opened WaveSchedule

  const L1W1 := Wave([
    EnemySpawn("Monster_0_Right", 0.0), EnemySpawn("Monster_0_Right", 0.5),
    EnemySpawn("Monster_0_Right", 1.0), EnemySpawn("Monster_0_Right", 1.5),
    EnemySpawn("Monster_0_Right", 2.0)], 6.0)

  const L1W2 := Wave([
    EnemySpawn("Monster_0_Top", 0.0), EnemySpawn("Monster_0_Bot", 0.0),
    EnemySpawn("Monster_0_Top", 1.0), EnemySpawn("Monster_0_Bot", 1.0),
    EnemySpawn("Monster_0_Top", 2.0), EnemySpawn("Monster_0_Bot", 2.0)], 6.0)

  const L2W1 := Wave([
    EnemySpawn("Monster_0_Left", 0.0), EnemySpawn("Monster_0_Left", 0.0),
    EnemySpawn("Monster_0_Left", 0.0), EnemySpawn("Monster_0_Left", 0.0),
    EnemySpawn("Monster_0_Left", 0.0), EnemySpawn("Monster_0_Left", 0.0)], 8.0)

  const L2W2 := Wave([
    EnemySpawn("Monster_0_Top", 0.0), EnemySpawn("Monster_0_Bot", 0.5),
    EnemySpawn("Monster_0_Left", 1.0), EnemySpawn("Monster_0_Right", 1.5),
    EnemySpawn("Monster_0_Top", 2.0), EnemySpawn("Monster_0_Bot", 2.5)], 8.0)

  const L3W1 := Wave([
    EnemySpawn("Boss_1", 0.0), EnemySpawn("Monster_0_Top", 2.0),
    EnemySpawn("Monster_0_Bot", 2.0), EnemySpawn("Monster_0_Top", 5.0),
    EnemySpawn("Monster_0_Bot", 5.0), EnemySpawn("Monster_0_Left", 8.0),
    EnemySpawn("Monster_0_Left", 8.0), EnemySpawn("Monster_0_Top", 12.0),
    EnemySpawn("Monster_0_Bot", 12.0), EnemySpawn("Monster_0_Left", 15.0)], 999.0)

  const L4W1 := Wave([
    EnemySpawn("Monster_Wave_2_Left", 0.0), EnemySpawn("Monster_Wave_2_Left", 0.5),
    EnemySpawn("Monster_Wave_2_Left", 1.0), EnemySpawn("Monster_Wave_2_Left", 1.5),
    EnemySpawn("Monster_Wave_2_Left", 2.0), EnemySpawn("Monster_Wave_2_Left", 2.5),
    EnemySpawn("Monster_Wave_2_Left", 3.0), EnemySpawn("Monster_Wave_2_Right", 3.0),
    EnemySpawn("Monster_Wave_2_Right", 3.5), EnemySpawn("Monster_Wave_2_Right", 4.0),
    EnemySpawn("Monster_Wave_2_Right", 4.5)], 8.0)

  const L4W2 := Wave([
    EnemySpawn("Monster_Wave_2_Left", 0.0), EnemySpawn("Monster_Wave_2_Left", 0.5),
    EnemySpawn("Monster_Wave_2_Left", 1.0), EnemySpawn("Monster_Wave_2_Left", 1.5),
    EnemySpawn("Monster_Wave_2_Left", 2.0), EnemySpawn("Monster_Wave_2_Left", 2.5),
    EnemySpawn("Monster_Wave_2_Left", 3.0), EnemySpawn("Monster_Wave_2_Right", 0.0),
    EnemySpawn("Monster_Wave_2_Right", 0.0), EnemySpawn("Monster_Wave_2_Right", 2.0)], 6.0)

  const L4W3 := Wave([
    EnemySpawn("Monster_Wave_2_Left", 0.0), EnemySpawn("Monster_Wave_2_Left", 0.5),
    EnemySpawn("Monster_Wave_2_Left", 1.0), EnemySpawn("Monster_Wave_2_Left", 1.5),
    EnemySpawn("Monster_Wave_2_Left", 2.0), EnemySpawn("Monster_Wave_2_Left", 2.5),
    EnemySpawn("Monster_Wave_2_Left", 3.0), EnemySpawn("Monster_Wave_2_Left", 3.5),
    EnemySpawn("Monster_Wave_2_Left", 4.0), EnemySpawn("Monster_Wave_2_Right", 0.0),
    EnemySpawn("Monster_Wave_2_Right", 0.5), EnemySpawn("Monster_Wave_2_Right", 1.0),
    EnemySpawn("Monster_Wave_2_Right", 1.5), EnemySpawn("Monster_Wave_2_Right", 2.0),
    EnemySpawn("Monster_Wave_2_Right", 2.5), EnemySpawn("Monster_Wave_2_Right", 3.0),
    EnemySpawn("Monster_Wave_2_Right", 3.5)], 10.0)

  const L4W4 := Wave([
    EnemySpawn("Monster_Wave_2_Left", 0.0), EnemySpawn("Monster_Wave_2_Left", 0.5),
    EnemySpawn("Monster_Wave_2_Left", 1.0), EnemySpawn("Monster_Wave_2_Left", 1.5),
    EnemySpawn("Monster_Wave_2_Left", 2.0), EnemySpawn("Monster_Wave_2_Left", 2.5),
    EnemySpawn("Monster_Wave_2_Left", 3.0), EnemySpawn("Monster_Wave_2_Right", 1.0),
    EnemySpawn("Monster_Wave_2_Right", 1.5)], 5.0)

  const L5W1 := Wave([
    EnemySpawn("Boss_2", 0.0), EnemySpawn("Monster_Wave_2_Left", 5.0),
    EnemySpawn("Monster_Wave_2_Left", 10.0), EnemySpawn("Monster_Wave_2_Left", 15.0),
    EnemySpawn("Monster_Wave_2_Left", 20.0)], 999.0)

  const LEVELS := [
    Level([L1W1, L1W2]),
    Level([L2W1, L2W2]),
    Level([L3W1]),
    Level([L4W1, L4W2, L4W3, L4W4]),
    Level([L5W1])]

  /** Every enemy is due before the wave's duration is over. */
  predicate WaveFits(wave: Wave) {
    wave.duration >= 0.0 && forall i :: 0 <= i < |wave.enemies| ==> wave.enemies[i].spawnTime <= wave.duration
  }

  /** In the shipped levels every enemy is due before its wave ends. */
  lemma LevelsFit()
    ensures TimesFit(LEVELS)
  {
    assert WaveFits(L1W1);
    assert WaveFits(L1W2);
    assert WaveFits(L2W1);
    assert WaveFits(L2W2);
    assert WaveFits(L3W1);
    assert WaveFits(L4W1);
    assert WaveFits(L4W2);
    assert WaveFits(L4W3);
    assert WaveFits(L4W4);
    assert WaveFits(L5W1);
    forall l, w | 0 <= l < |LEVELS| && 0 <= w < |LEVELS[l].waves|
      ensures WaveTimesFit(LEVELS[l].waves[w], w == 0)
    {
      assert WaveFits(LEVELS[l].waves[w]);
    }
  }

  lemma Bosses()
    ensures BossWave(L3W1) && L3W1.enemies[0].spawnTime <= WARNING_TIME
    ensures BossWave(L5W1) && L5W1.enemies[0].spawnTime <= WARNING_TIME
  {
    assert "Boss_1"[..4] == "Boss" && "Boss_2"[..4] == "Boss";
  }

  /** So on the shipped levels no run ever leaves a wave with an enemy missing, repeated or out
      of order, and both bosses are announced exactly once per stay, four seconds ahead. */
  lemma ShippedWavesAreComplete(ticks: seq<Tick>)
    requires Forward(ticks)
    ensures AllComplete(LEVELS, Run(LEVELS, ticks).departures)
    ensures forall i :: 0 <= i < |Run(LEVELS, ticks).departures| ==>
      var d := Run(LEVELS, ticks).departures[i];
      d.level == 2 || d.level == 4 ==> d.visit.warnings == 1 && d.visit.bossWait >= 4.0
  {
    LevelsFit();
    Bosses();
    WavesAreComplete(LEVELS, ticks);
    forall i | 0 <= i < |Run(LEVELS, ticks).departures|
      ensures var d := Run(LEVELS, ticks).departures[i];
        d.level == 2 || d.level == 4 ==> d.visit.warnings == 1 && d.visit.bossWait >= 4.0
    {
      assert Complete(LEVELS, Run(LEVELS, ticks).departures[i]);
    }
  }
}
