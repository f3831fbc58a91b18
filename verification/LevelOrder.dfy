/** The order in which the scheduler goes through the levels and waves, and when each enemy
    appears, told by indices and times. */
module LevelOrder {
  import opened SpawnSystem
  import opened WaveSchedule
  import Text

  datatype Place = Place(level: nat, wave: nat)

  function PlaceOf(h: History): Place {
    Place(h.sp.level, h.sp.wave)
  }

  predicate Exists(levels: seq<Level>, p: Place) {
    p.level < |levels| && p.wave < |levels[p.level].waves|
  }

  /** The wave after a wave: the next of its level, else the first of the next level, else the
      first of all. */
  function After(levels: seq<Level>, p: Place): Place
    requires Exists(levels, p)
  {
    if p.wave + 1 < |levels[p.level].waves| then Place(p.level, p.wave + 1)
    else if p.level + 1 < |levels| then Place(p.level + 1, 0)
    else Place(0, 0)
  }

  /** Where the scheduler goes on from a place: a level without waves sends it back to the first
      level. */
  function GoesOn(levels: seq<Level>, p: Place): Place {
    if p.level < |levels| && p.wave >= |levels[p.level].waves| then Place(0, 0) else p
  }

  // One frame.

  /** What one frame does to the place and the wave timer, in every reachable state: beyond the
      last level, the timer runs on and nothing else happens; in a level without such a wave, back
      to the very first; in a wave, on to the one after it exactly if no warning shows after the
      frame and the wave has lasted its duration, and otherwise the timer runs on. */
  lemma {:induction false} FrameMoves(levels: seq<Level>, h: History, dt: real)
    requires Good(levels, h) && dt >= 0.0
    ensures var h' := Step(levels, h, Elapse(dt));
      var p, p', time := PlaceOf(h), PlaceOf(h'), h.sp.waveTimer + dt;
      if p.level >= |levels| then
        p' == p && h'.sp.waveTimer == time && h'.departures == h.departures && h'.visit.spawned == []
      else if p.wave >= |levels[p.level].waves| then
        p' == Place(0, 0) && h'.sp.waveTimer == 0.0 && h'.departures == h.departures && h'.visit.spawned == []
      else
        var wave := levels[p.level].waves[p.wave];
        if !h'.sp.warning && time >= wave.duration then
          && p' == After(levels, p) && h'.sp.waveTimer == 0.0 && h'.sp.index == 0 && h'.visit.spawned == []
          && |h'.departures| == |h.departures| + 1 && h'.departures[..|h.departures|] == h.departures
          && h'.departures[|h.departures|].level == p.level && h'.departures[|h.departures|].wave == p.wave
        else p' == p && h'.sp.waveTimer == time && h'.departures == h.departures
  {
    if Exists(levels, PlaceOf(h)) {
      var sp := h.sp.(waveTimer := h.sp.waveTimer + dt);
      var wave := levels[sp.level].waves[sp.wave];
      SpawnDueKeeps(wave, sp, Age(h.visit, dt), dt);
      FrameResult(levels, h, dt);
    }
  }

  // When enemies appear.

  /** Every enemy that has appeared was due; and without a warning showing, the next is not. */
  predicate Punctual(wave: Wave, sp: Spawner) {
    && (forall i :: 0 <= i < sp.index && i < |wave.enemies| ==> wave.enemies[i].spawnTime <= sp.waveTimer)
    && (sp.index < |wave.enemies| && !sp.warning && sp.waveTimer > 0.0 ==>
          wave.enemies[sp.index].spawnTime > sp.waveTimer)
  }

  predicate AllDue(wave: Wave, sp: Spawner) {
    forall i :: 0 <= i < sp.index && i < |wave.enemies| ==> wave.enemies[i].spawnTime <= sp.waveTimer
  }

  lemma {:induction false} DueOnly(wave: Wave, sp: Spawner, dt: real)
    requires AllDue(wave, sp)
    ensures AllDue(wave, SpawnDue(wave, sp, dt).sp)
    decreases |wave.enemies| - sp.index
  {
    if sp.index < |wave.enemies| {
      var s := CountDown(Announce(wave, sp), dt);
      if !s.warning && s.waveTimer >= wave.enemies[s.index].spawnTime {
        DueOnly(wave, s.(index := s.index + 1), dt);
      }
    }
  }

  predicate OnTime(levels: seq<Level>, h: History) {
    Exists(levels, PlaceOf(h)) ==> Punctual(levels[h.sp.level].waves[h.sp.wave], h.sp)
  }

  lemma {:induction false} FrameOnTime(levels: seq<Level>, h: History, dt: real)
    requires Good(levels, h) && OnTime(levels, h) && dt >= 0.0
    ensures OnTime(levels, Step(levels, h, Elapse(dt)))
  {
    FrameMoves(levels, h, dt);
    if Exists(levels, PlaceOf(h)) {
      var sp := h.sp.(waveTimer := h.sp.waveTimer + dt);
      var wave := levels[sp.level].waves[sp.wave];
      SpawnDueKeeps(wave, sp, Age(h.visit, dt), dt);
      FrameResult(levels, h, dt);
      assert AllDue(wave, sp);
      DueOnly(wave, sp, dt);
    }
  }

  /** In every run, at every moment in a wave: the enemies that have appeared are the first ones of
      the list, all of them due; and none that is due is missing, unless a warning shows or no
      frame has passed in the wave yet. */
  lemma {:induction false} EnemiesAppearOnTime(levels: seq<Level>, ticks: seq<Tick>)
    requires Forward(ticks)
    ensures var h := Run(levels, ticks);
      Exists(levels, PlaceOf(h)) ==>
        var wave := levels[h.sp.level].waves[h.sp.wave];
        && h.sp.index <= |wave.enemies| && h.visit.spawned == seq(h.sp.index, i => i)
        && (forall i :: 0 <= i < h.sp.index ==> wave.enemies[i].spawnTime <= h.sp.waveTimer)
        && (h.sp.index < |wave.enemies| && !h.sp.warning && h.sp.waveTimer > 0.0 ==>
              wave.enemies[h.sp.index].spawnTime > h.sp.waveTimer)
  {
    RunOnTime(levels, ticks);
    RunIsGood(levels, ticks);
  }

  lemma {:induction false} RunOnTime(levels: seq<Level>, ticks: seq<Tick>)
    requires Forward(ticks)
    ensures OnTime(levels, Run(levels, ticks))
    decreases |ticks|
  {
    if ticks != [] {
      var front, last := ticks[..|ticks| - 1], ticks[|ticks| - 1];
      RunOnTime(levels, front);
      RunIsGood(levels, front);
      if last.Elapse? {
        FrameOnTime(levels, Run(levels, front), last.dt);
      }
    }
  }

  /** In every run a warning shows only before the first enemy of a level's first wave, a boss, with
      more than no and at most four seconds to go; and a boss there has had one, four seconds of
      frame time earlier. */
  lemma {:induction false} WarningsPrecedeBosses(levels: seq<Level>, ticks: seq<Tick>)
    requires Forward(ticks)
    ensures var h := Run(levels, ticks);
      && (h.sp.warning ==>
            && Exists(levels, PlaceOf(h)) && h.sp.wave == 0 && h.sp.index == 0 && 0.0 < h.sp.warningTimer <= 4.0
            && BossHeads(levels[h.sp.level].waves[0]))
      && (Exists(levels, PlaceOf(h)) && h.sp.wave == 0 && h.sp.index > 0 && BossHeads(levels[h.sp.level].waves[0]) ==>
            h.visit.warnings >= 1 && h.visit.bossWait >= 4.0)
  {
    RunIsGood(levels, ticks);
    var h := Run(levels, ticks);
    if Exists(levels, PlaceOf(h)) && h.sp.wave == 0 {
      HeadIff(levels[h.sp.level].waves[0]);
    }
  }

  ghost predicate BossHeads(wave: Wave) {
    wave.enemies != [] && exists i: nat :: Text.StandsAt(wave.enemies[0].kind, "Boss", i)
  }

  lemma HeadIff(wave: Wave)
    ensures BossWave(wave) <==> BossHeads(wave)
  {
    if wave.enemies != [] {
      Text.ContainsIff(wave.enemies[0].kind, "Boss");
    }
  }

  // The order of departures.

  function PlaceLeft(d: Departure): Place {
    Place(d.level, d.wave)
  }

  /** The place to which departure number `i` comes, before a level without waves is passed over. */
  function Heading(levels: seq<Level>, from: Place, ds: seq<Departure>, i: nat): Place
    requires i <= |ds|
  {
    if i == 0 then from
    else if Exists(levels, PlaceLeft(ds[i - 1])) then After(levels, PlaceLeft(ds[i - 1]))
    else PlaceLeft(ds[i - 1])
  }

  /** Departure number `i` is from where the one before it leads. */
  predicate InOrder(levels: seq<Level>, from: Place, ds: seq<Departure>, i: nat)
    requires i < |ds|
  {
    Exists(levels, PlaceLeft(ds[i])) && PlaceLeft(ds[i]) == GoesOn(levels, Heading(levels, from, ds, i))
  }

  /** Between `from` and the current place lie the departures `ds`, in order. */
  predicate Chain(levels: seq<Level>, from: Place, ds: seq<Departure>, now: Place) {
    && (forall i :: 0 <= i < |ds| ==> InOrder(levels, from, ds, i))
    && var q := Heading(levels, from, ds, |ds|);
       now == q || now == GoesOn(levels, q)
  }

  lemma ChainMoves(levels: seq<Level>, from: Place, ds: seq<Departure>, p: Place, now: Place)
    requires Chain(levels, from, ds, p) && (now == p || now == GoesOn(levels, p))
    ensures Chain(levels, from, ds, now)
  {
  }

  lemma ChainGrows(levels: seq<Level>, from: Place, ds: seq<Departure>, d: Departure)
    requires Chain(levels, from, ds, PlaceLeft(d)) && Exists(levels, PlaceLeft(d))
    ensures Chain(levels, from, ds + [d], After(levels, PlaceLeft(d)))
  {
    var more := ds + [d];
    forall i | 0 <= i < |more|
      ensures InOrder(levels, from, more, i)
    {
      assert i < |ds| ==> InOrder(levels, from, ds, i);
      assert Heading(levels, from, more, i) == Heading(levels, from, ds, i);
    }
  }

  lemma {:induction false} ChainStep(levels: seq<Level>, h: History, dt: real, from: Place, past: seq<Departure>,
                                     ds: seq<Departure>) returns (more: seq<Departure>)
    requires Good(levels, h) && dt >= 0.0 && h.departures == past + ds && Chain(levels, from, ds, PlaceOf(h))
    ensures var h' := Step(levels, h, Elapse(dt));
      h'.departures == past + more && Chain(levels, from, more, PlaceOf(h'))
  {
    var h' := Step(levels, h, Elapse(dt));
    FrameMoves(levels, h, dt);
    if |h'.departures| == |h.departures| {
      more := ds;
      ChainMoves(levels, from, ds, PlaceOf(h), PlaceOf(h'));
    } else {
      var d := h'.departures[|h.departures|];
      more := ds + [d];
      assert h'.departures == h'.departures[..|h.departures|] + [d];
      ChainGrows(levels, from, ds, d);
    }
  }

  lemma {:induction false} FramesInOrder(levels: seq<Level>, before: seq<Tick>, frames: seq<Tick>)
    returns (ds: seq<Departure>)
    requires Forward(before + frames) && forall i :: 0 <= i < |frames| ==> frames[i].Elapse?
    ensures var h, h' := Run(levels, before), Run(levels, before + frames);
      h'.departures == h.departures + ds && Chain(levels, PlaceOf(h), ds, PlaceOf(h'))
    decreases |frames|
  {
    if frames == [] {
      assert before + frames == before;
      ds := [];
    } else {
      var m := |frames| - 1;
      var front := before + frames[..m];
      assert (before + frames)[..|before| + m] == front && front + [frames[m]] == before + frames;
      assert frames[m] == (before + frames)[|before| + m];
      var past := FramesInOrder(levels, before, frames[..m]);
      RunOne(levels, front, frames[m]);
      RunIsGood(levels, front);
      ds := ChainStep(levels, Run(levels, front), frames[m].dt, PlaceOf(Run(levels, before)),
                      Run(levels, before).departures, past);
    }
  }

  /** Over every run without a death of Boss_1 after `before`: the waves left follow each other in
      the order of the levels, from the place where the run then stood, around and around; only
      levels without waves break it, which lead back to the first. */
  lemma DeparturesInOrder(levels: seq<Level>, before: seq<Tick>, frames: seq<Tick>)
    requires Forward(before + frames) && forall i :: 0 <= i < |frames| ==> frames[i].Elapse?
    ensures var h, h' := Run(levels, before), Run(levels, before + frames);
      && |h'.departures| >= |h.departures| && h'.departures[..|h.departures|] == h.departures
      && Chain(levels, PlaceOf(h), h'.departures[|h.departures|..], PlaceOf(h'))
  {
    var ds := FramesInOrder(levels, before, frames);
    var h := Run(levels, before);
    assert (h.departures + ds)[|h.departures|..] == ds;
  }

  /** A death of Boss_1 moves to the next level's first wave, afresh. */
  lemma BossMoves(levels: seq<Level>, h: History)
    ensures var h' := Step(levels, h, BossDown);
      && PlaceOf(h') == Place(h.sp.level + 1, 0) && h'.departures == h.departures
      && h'.sp.index == 0 && h'.sp.waveTimer == 0.0 && !h'.sp.warning && h'.sp.warningTimer == 0.0
  {
  }
}
