/** What the wave scheduler keeps over any run: any sequence of frame times, interrupted at any
    point by the death of Boss_1. */
module WaveSchedule {
  import opened SpawnSystem

  datatype Tick = Elapse(dt: real) | BossDown

  /** The history of the current stay in a wave: the enemies spawned, in order, the warnings
      raised, the frame time since the last warning was raised (its own frame included), and
      that time as it was when the first enemy appeared. */
  datatype Visit = Visit(spawned: seq<nat>, warnings: nat, sinceWarning: real, bossWait: real)

  /** A wave that the scheduler left on its own, with the history of the stay. */
  datatype Departure = Departure(level: nat, wave: nat, visit: Visit)

  datatype History = History(sp: Spawner, visit: Visit, departures: seq<Departure>)

  const NEW_VISIT := Visit([], 0, 0.0, 0.0)
  const START := History(FIRST, NEW_VISIT, [])

  function Note(v: Visit, e: Event, dt: real): Visit {
    match e
    case Warned => v.(warnings := v.warnings + 1, sinceWarning := dt)
    case Spawned(i) => v.(spawned := v.spawned + [i], bossWait := if i == 0 then v.sinceWarning else v.bossWait)
    case Left(_, _) => v
  }

  function Follow(v: Visit, events: seq<Event>, dt: real): Visit
    decreases |events|
  {
    if events == [] then v else Follow(Note(v, events[0], dt), events[1..], dt)
  }

  function Age(v: Visit, dt: real): Visit {
    if v.warnings > 0 then v.(sinceWarning := v.sinceWarning + dt) else v
  }

  function Step(levels: seq<Level>, h: History, t: Tick): History {
    match t
    case BossDown => h.(sp := AdvanceLevel(h.sp), visit := NEW_VISIT)
    case Elapse(dt) =>
      var (sp, events) := Update(levels, h.sp, dt);
      var v := Follow(Age(h.visit, dt), events, dt);
      if events != [] && events[|events| - 1].Left? then
        var gone := events[|events| - 1];
        History(sp, NEW_VISIT, h.departures + [Departure(gone.level, gone.wave, v)])
      else History(sp, v, h.departures)
  }

  function Run(levels: seq<Level>, ticks: seq<Tick>): History
    decreases |ticks|
  {
    if ticks == [] then START else Step(levels, Run(levels, ticks[..|ticks| - 1]), ticks[|ticks| - 1])
  }

  /** Frame times are not negative. */
  predicate Forward(ticks: seq<Tick>) {
    forall i :: 0 <= i < |ticks| && ticks[i].Elapse? ==> ticks[i].dt >= 0.0
  }

  function Iota(n: nat): seq<nat> {
    seq(n, i => i)
  }

  predicate Announced(wave: Wave, sp: Spawner) {
    sp.wave == 0 && BossWave(wave)
  }

  /** What holds during a stay in `wave`; `lag` is the frame time by which a showing warning's
      timer is behind. */
  predicate VisitOk(wave: Wave, sp: Spawner, v: Visit, lag: real) {
    && sp.index <= |wave.enemies|
    && v.spawned == Iota(sp.index)
    && (!sp.warning ==> sp.warningTimer == 0.0)
    && lag <= sp.waveTimer
    && (if Announced(wave, sp) then AnnouncedOk(wave, sp, v, lag) else !sp.warning && v.warnings == 0)
  }

  predicate AnnouncedOk(wave: Wave, sp: Spawner, v: Visit, lag: real)
    requires BossWave(wave)
  {
    && (v.warnings > 0 ==> v.sinceWarning <= sp.waveTimer)
    // A showing warning stands before the boss, with between zero and four seconds to go.
    && (sp.warning ==> sp.index == 0 && v.warnings >= 1 && 0.0 < sp.warningTimer <= WARNING_TIME
                       && sp.warningTimer - lag == WARNING_TIME - v.sinceWarning)
    // A boss that has appeared was announced, at least four seconds of frame time earlier.
    && (sp.index > 0 ==> v.warnings >= 1 && WARNING_TIME <= v.bossWait <= sp.waveTimer)
    // A warning that ended without the boss had run its four seconds.
    && (Overdue(sp, v) ==> sp.waveTimer - lag >= WARNING_TIME && wave.enemies[0].spawnTime > WARNING_TIME)
    && (WarnsOnce(wave) ==> v.warnings <= 1)
  }

  /** The warning is over and the boss is still not due. */
  predicate Overdue(sp: Spawner, v: Visit) {
    sp.index == 0 && !sp.warning && v.warnings > 0
  }

  /** A boss due by the end of its warning, or a wave that does not last longer. */
  predicate WarnsOnce(wave: Wave)
    requires BossWave(wave)
  {
    wave.enemies[0].spawnTime <= WARNING_TIME || wave.duration <= WARNING_TIME
  }

  lemma FollowConcat(v: Visit, a: seq<Event>, b: seq<Event>, dt: real)
    ensures Follow(v, a + b, dt) == Follow(Follow(v, a, dt), b, dt)
    decreases |a|
  {
    if a == [] {
      assert a + b == b;
    } else {
      assert (a + b)[1..] == a[1..] + b;
      FollowConcat(Note(v, a[0], dt), a[1..], b, dt);
    }
  }

  lemma FollowOne(v: Visit, e: Event, dt: real)
    ensures Follow(v, [e], dt) == Note(v, e, dt)
  {
    assert [e][1..] == [];
    assert Follow(Note(v, e, dt), [], dt) == Note(v, e, dt);
  }

  /** The announcement and the countdown of one round of the loop. */
  lemma AnnounceKeeps(wave: Wave, sp: Spawner, v: Visit, dt: real) returns (s: Spawner, w: Visit)
    requires VisitOk(wave, sp, v, dt) && dt >= 0.0 && sp.index < |wave.enemies|
    requires Announced(wave, sp) && Overdue(sp, v) ==> sp.waveTimer - dt < wave.duration
    ensures Announced(wave, s) && s.index == 0 ==> w.warnings >= 1
    ensures s == CountDown(Announce(wave, sp), dt)
    ensures w == Follow(v, if Raises(wave, sp) then [Warned] else [], dt)
    ensures s.warning ==> VisitOk(wave, s, w, 0.0)
    ensures !s.warning && s.waveTimer < wave.enemies[s.index].spawnTime ==> VisitOk(wave, s, w, 0.0)
    ensures !s.warning && s.waveTimer >= wave.enemies[s.index].spawnTime ==>
      VisitOk(wave, s.(index := s.index + 1), Note(w, Spawned(s.index), dt), dt)
  {
    s := CountDown(Announce(wave, sp), dt);
    FollowOne(v, Warned, dt);
    w := if Raises(wave, sp) then Note(v, Warned, dt) else v;
    assert Iota(s.index + 1) == Iota(s.index) + [s.index];
  }

  /** What is known when the loop ends: without waiting, every enemy is out or the next one is not
      due, and a warning that had to be given is over. */
  predicate LoopOk(wave: Wave, sp: Spawner, v: Visit, dt: real, l: Looped) {
    && VisitOk(wave, l.sp, Follow(v, l.events, dt), 0.0)
    && (l.waiting <==> l.sp.warning)
    && (!l.waiting && l.sp.index < |wave.enemies| ==> l.sp.waveTimer < wave.enemies[l.sp.index].spawnTime)
    && (!l.waiting && Announced(wave, sp) ==> l.sp.waveTimer >= WARNING_TIME)
    && (forall i :: 0 <= i < |l.events| ==> !l.events[i].Left?)
  }

  lemma FollowRound(v: Visit, raised: seq<Event>, e: Event, more: seq<Event>, dt: real)
    ensures Follow(v, raised + [e] + more, dt) == Follow(Note(Follow(v, raised, dt), e, dt), more, dt)
  {
    FollowConcat(v, raised + [e], more, dt);
    FollowConcat(v, raised, [e], dt);
    FollowOne(Follow(v, raised, dt), e, dt);
  }

  /** One more round in front of a loop. */
  lemma RoundBefore(wave: Wave, sp: Spawner, v: Visit, dt: real, raised: seq<Event>, i: nat, w: Visit, s: Spawner,
                    more: Looped)
    requires LoopOk(wave, s, Note(w, Spawned(i), dt), dt, more) && w == Follow(v, raised, dt) && s.wave == sp.wave
    requires raised == [] || raised == [Warned]
    ensures LoopOk(wave, sp, v, dt, Looped(more.sp, raised + [Spawned(i)] + more.events, more.waiting))
  {
    FollowRound(v, raised, Spawned(i), more.events, dt);
  }

  /** The loop over the enemies due. */
  lemma {:induction false} SpawnDueKeeps(wave: Wave, sp: Spawner, v: Visit, dt: real)
    requires VisitOk(wave, sp, v, dt) && dt >= 0.0 && (sp.index >= |wave.enemies| ==> !sp.warning)
    requires Announced(wave, sp) && Overdue(sp, v) ==> sp.waveTimer - dt < wave.duration
    ensures LoopOk(wave, sp, v, dt, SpawnDue(wave, sp, dt))
    decreases |wave.enemies| - sp.index
  {
    if sp.index < |wave.enemies| {
      var s, w := AnnounceKeeps(wave, sp, v, dt);
      var raised := if Raises(wave, sp) then [Warned] else [];
      if !s.warning && s.waveTimer >= wave.enemies[s.index].spawnTime {
        var next := s.(index := s.index + 1);
        SpawnDueKeeps(wave, next, Note(w, Spawned(s.index), dt), dt);
        RoundBefore(wave, sp, v, dt, raised, s.index, w, next, SpawnDue(wave, next, dt));
      }
    }
  }

  /** The first wave of a level, if a boss heads it, holds at least as long as the warning. */
  function HeldFor(wave: Wave, first: bool): real {
    var least := if first && BossWave(wave) then WARNING_TIME else 0.0;
    if wave.duration < least then least else wave.duration
  }

  /** Every enemy is due by the earliest time at which its wave can end. */
  predicate TimesFit(levels: seq<Level>) {
    forall l, w :: 0 <= l < |levels| && 0 <= w < |levels[l].waves| ==> WaveTimesFit(levels[l].waves[w], w == 0)
  }

  predicate WaveTimesFit(wave: Wave, first: bool) {
    forall i :: 0 <= i < |wave.enemies| ==> FitsIn(wave, first, i)
  }

  predicate FitsIn(wave: Wave, first: bool, i: nat)
    requires i < |wave.enemies|
  {
    wave.enemies[i].spawnTime <= HeldFor(wave, first)
  }

  /** What a departure shows: each enemy of the wave was spawned exactly once, in list order;
      a leading boss was announced, four seconds ahead, and once if due within that time or if
      the wave does not last longer. */
  predicate Complete(levels: seq<Level>, d: Departure) {
    && d.level < |levels| && d.wave < |levels[d.level].waves|
    && var wave := levels[d.level].waves[d.wave];
    && d.visit.spawned == Iota(|wave.enemies|)
    && (if d.wave == 0 && BossWave(wave) then
          && d.visit.warnings >= 1 && d.visit.bossWait >= WARNING_TIME
          && (WarnsOnce(wave) ==> d.visit.warnings == 1)
        else d.visit.warnings == 0)
  }

  /** The invariant of every run: the indices point at an existing level, wave and enemy (or
      just past the last enemy) unless there is no such level or the level has no waves. */
  predicate Good(levels: seq<Level>, h: History) {
    && h.sp.waveTimer >= 0.0
    && (if h.sp.level < |levels| && h.sp.wave < |levels[h.sp.level].waves| then
          var wave := levels[h.sp.level].waves[h.sp.wave];
          && VisitOk(wave, h.sp, h.visit, 0.0)
          && (Announced(wave, h.sp) && Overdue(h.sp, h.visit) ==> h.sp.waveTimer < wave.duration)
        else
          h.sp.wave == 0 && h.sp.index == 0 && !h.sp.warning && h.sp.warningTimer == 0.0 && h.visit == NEW_VISIT)
  }

  lemma FreshIsGood(levels: seq<Level>, sp: Spawner, ds: seq<Departure>)
    requires sp.waveTimer == 0.0 && sp.index == 0 && !sp.warning && sp.warningTimer == 0.0
    requires sp.wave == 0 || (sp.level < |levels| && sp.wave < |levels[sp.level].waves|)
    ensures Good(levels, History(sp, NEW_VISIT, ds))
  {
    assert Iota(0) == [];
  }

  lemma LeavingIsComplete(levels: seq<Level>, level: nat, wv: nat, sp: Spawner, v: Visit)
    requires level < |levels| && wv < |levels[level].waves| && sp.wave == wv
    requires VisitOk(levels[level].waves[wv], sp, v, 0.0) && !sp.warning
    requires var wave := levels[level].waves[wv];
      sp.index < |wave.enemies| ==> sp.waveTimer < wave.enemies[sp.index].spawnTime
    requires sp.waveTimer >= HeldFor(levels[level].waves[wv], wv == 0) && TimesFit(levels)
    ensures Complete(levels, Departure(level, wv, v))
  {
    var wave := levels[level].waves[wv];
    assert WaveTimesFit(wave, wv == 0);
    assert sp.index < |wave.enemies| ==> FitsIn(wave, wv == 0, sp.index);
  }

  lemma NoteLeft(v: Visit, events: seq<Event>, level: nat, wave: nat, dt: real)
    ensures Follow(v, events + [Left(level, wave)], dt) == Follow(v, events, dt)
  {
    FollowConcat(v, events, [Left(level, wave)], dt);
    FollowOne(Follow(v, events, dt), Left(level, wave), dt);
  }

  predicate AllOnce(ds: seq<Departure>) {
    forall i :: 0 <= i < |ds| ==> ds[i].visit.warnings <= 1
  }

  /** Every boss that heads the first wave of a level is announced once only. */
  predicate OnceOnly(levels: seq<Level>) {
    forall l :: 0 <= l < |levels| && levels[l].waves != [] && BossWave(levels[l].waves[0]) ==>
      WarnsOnce(levels[l].waves[0])
  }

  predicate AllComplete(levels: seq<Level>, ds: seq<Departure>) {
    forall i :: 0 <= i < |ds| ==> Complete(levels, ds[i])
  }

  /** What one frame does, given the result of its loop. */
  lemma FrameResult(levels: seq<Level>, h: History, dt: real)
    requires h.sp.level < |levels| && h.sp.wave < |levels[h.sp.level].waves|
    requires var sp := h.sp.(waveTimer := h.sp.waveTimer + dt);
      var events := SpawnDue(levels[sp.level].waves[sp.wave], sp, dt).events;
      forall i :: 0 <= i < |events| ==> !events[i].Left?
    ensures var sp := h.sp.(waveTimer := h.sp.waveTimer + dt);
      var wave := levels[sp.level].waves[sp.wave];
      var l := SpawnDue(wave, sp, dt);
      var v := Follow(Age(h.visit, dt), l.events, dt);
      Step(levels, h, Elapse(dt)) ==
        if !l.waiting && l.sp.waveTimer >= wave.duration then
          History(NextWave(levels, l.sp), NEW_VISIT, h.departures + [Departure(sp.level, sp.wave, v)])
        else History(l.sp, v, h.departures)
  {
    var sp := h.sp.(waveTimer := h.sp.waveTimer + dt);
    NoteLeft(Age(h.visit, dt), SpawnDue(levels[sp.level].waves[sp.wave], sp, dt).events, sp.level, sp.wave, dt);
  }

  /** A frame that leaves the wave. */
  lemma {:induction false} FrameLeaves(levels: seq<Level>, h: History, dt: real)
    requires Good(levels, h) && dt >= 0.0
    requires h.sp.level < |levels| && h.sp.wave < |levels[h.sp.level].waves|
    requires var sp := h.sp.(waveTimer := h.sp.waveTimer + dt);
      var wave := levels[sp.level].waves[sp.wave];
      var l := SpawnDue(wave, sp, dt);
      !l.waiting && l.sp.waveTimer >= wave.duration
    ensures var h' := Step(levels, h, Elapse(dt));
      && Good(levels, h') && h'.visit == NEW_VISIT
      && (TimesFit(levels) && AllComplete(levels, h.departures) ==> AllComplete(levels, h'.departures))
      && (OnceOnly(levels) && AllOnce(h.departures) ==> AllOnce(h'.departures))
  {
    var sp := h.sp.(waveTimer := h.sp.waveTimer + dt);
    var wave := levels[sp.level].waves[sp.wave];
    var l := SpawnDue(wave, sp, dt);
    var v := Age(h.visit, dt);
    SpawnDueKeeps(wave, sp, v, dt);
    FrameResult(levels, h, dt);
    FreshIsGood(levels, NextWave(levels, l.sp), Step(levels, h, Elapse(dt)).departures);
    if TimesFit(levels) {
      LeavingIsComplete(levels, sp.level, sp.wave, l.sp, Follow(v, l.events, dt));
    }
  }

  lemma {:induction false} FrameKeepsGood(levels: seq<Level>, h: History, dt: real)
    requires Good(levels, h) && dt >= 0.0
    requires h.sp.level < |levels| && h.sp.wave < |levels[h.sp.level].waves|
    ensures var h' := Step(levels, h, Elapse(dt));
      && Good(levels, h')
      && (TimesFit(levels) && AllComplete(levels, h.departures) ==> AllComplete(levels, h'.departures))
      && (OnceOnly(levels) && AllOnce(h.departures) ==> AllOnce(h'.departures))
  {
    var sp := h.sp.(waveTimer := h.sp.waveTimer + dt);
    var wave := levels[sp.level].waves[sp.wave];
    var l := SpawnDue(wave, sp, dt);
    if !l.waiting && l.sp.waveTimer >= wave.duration {
      FrameLeaves(levels, h, dt);
    } else {
      SpawnDueKeeps(wave, sp, Age(h.visit, dt), dt);
      FrameResult(levels, h, dt);
    }
  }

  lemma {:induction false} StepKeepsGood(levels: seq<Level>, h: History, t: Tick)
    requires Good(levels, h) && (t.Elapse? ==> t.dt >= 0.0)
    ensures Good(levels, Step(levels, h, t))
    ensures TimesFit(levels) && AllComplete(levels, h.departures) ==> AllComplete(levels, Step(levels, h, t).departures)
    ensures OnceOnly(levels) && AllOnce(h.departures) ==> AllOnce(Step(levels, h, t).departures)
  {
    match t
    case BossDown =>
      FreshIsGood(levels, AdvanceLevel(h.sp), h.departures);
    case Elapse(dt) =>
      if h.sp.level < |levels| && h.sp.wave < |levels[h.sp.level].waves| {
        FrameKeepsGood(levels, h, dt);
      } else {
        assert Iota(0) == [];
      }
  }

  /** Over any run the indices stay in range and a warning shows only before a boss that heads
      the first wave of a level. */
  lemma {:induction false} RunIsGood(levels: seq<Level>, ticks: seq<Tick>)
    requires Forward(ticks)
    ensures Good(levels, Run(levels, ticks))
    decreases |ticks|
  {
    if ticks == [] {
      FreshIsGood(levels, FIRST, []);
    } else {
      RunIsGood(levels, ticks[..|ticks| - 1]);
      StepKeepsGood(levels, Run(levels, ticks[..|ticks| - 1]), ticks[|ticks| - 1]);
    }
  }

  /** Whenever the scheduler itself leaves a wave, each of its enemies has been spawned exactly
      once, in list order. */
  lemma {:induction false} WavesAreComplete(levels: seq<Level>, ticks: seq<Tick>)
    requires Forward(ticks) && TimesFit(levels)
    ensures AllComplete(levels, Run(levels, ticks).departures)
    decreases |ticks|
  {
    if ticks != [] {
      WavesAreComplete(levels, ticks[..|ticks| - 1]);
      RunIsGood(levels, ticks[..|ticks| - 1]);
      StepKeepsGood(levels, Run(levels, ticks[..|ticks| - 1]), ticks[|ticks| - 1]);
    }
  }

  /** No stay in a wave raises more than one warning. */
  ghost predicate WarnedOnce(h: History) {
    h.visit.warnings <= 1 && AllOnce(h.departures)
  }

  lemma {:induction false} BossesAreAnnouncedOnce(levels: seq<Level>, ticks: seq<Tick>)
    requires Forward(ticks) && OnceOnly(levels)
    ensures WarnedOnce(Run(levels, ticks))
    decreases |ticks|
  {
    RunIsGood(levels, ticks);
    if ticks != [] {
      BossesAreAnnouncedOnce(levels, ticks[..|ticks| - 1]);
      RunIsGood(levels, ticks[..|ticks| - 1]);
      StepKeepsGood(levels, Run(levels, ticks[..|ticks| - 1]), ticks[|ticks| - 1]);
    }
  }

  // Both conditions are needed: a run that breaks them.

  lemma {:induction false} SpawnDueStops(wave: Wave, sp: Spawner, dt: real, i: nat)
    requires sp.index <= i < |wave.enemies| && wave.enemies[i].spawnTime > sp.waveTimer
    ensures SpawnDue(wave, sp, dt).sp.index <= i
    decreases |wave.enemies| - sp.index
  {
    var s := CountDown(Announce(wave, sp), dt);
    if !s.warning && s.waveTimer >= wave.enemies[s.index].spawnTime {
      SpawnDueStops(wave, s.(index := s.index + 1), dt, i);
    }
  }

  /** A frame as long as a warning is not held up by one. */
  lemma {:induction false} LongFrame(wave: Wave, sp: Spawner, dt: real)
    requires !sp.warning && sp.warningTimer == 0.0
    requires Announced(wave, sp) && sp.index == 0 ==> dt >= WARNING_TIME
    ensures var l := SpawnDue(wave, sp, dt); !l.waiting && !l.sp.warning && l.sp.warningTimer == 0.0
    decreases |wave.enemies| - sp.index
  {
    if sp.index < |wave.enemies| {
      var s := CountDown(Announce(wave, sp), dt);
      assert !s.warning && s.warningTimer == 0.0;
      if s.waveTimer >= wave.enemies[s.index].spawnTime {
        LongFrame(wave, s.(index := s.index + 1), dt);
      }
    }
  }

  /** At the very beginning of a wave. */
  predicate Arrived(h: History, level: nat, wv: nat) {
    h.sp == Spawner(level, wv, 0, 0.0, false, 0.0) && h.visit == NEW_VISIT
  }

  /** One frame of the length for which a wave is held takes the scheduler through it. */
  lemma {:induction false} OneFrameLeaves(levels: seq<Level>, h: History, level: nat, wv: nat)
    requires level < |levels| && wv < |levels[level].waves| && Arrived(h, level, wv)
    ensures var wave := levels[level].waves[wv];
      var dt := HeldFor(wave, wv == 0);
      var l := SpawnDue(wave, h.sp.(waveTimer := dt), dt);
      var h' := Step(levels, h, Elapse(dt));
      && h' == History(NextWave(levels, l.sp), NEW_VISIT,
                       h.departures + [Departure(level, wv, Follow(NEW_VISIT, l.events, dt))])
      && (wv + 1 < |levels[level].waves| ==> Arrived(h', level, wv + 1))
      && Follow(NEW_VISIT, l.events, dt).spawned == Iota(l.sp.index)
  {
    var wave := levels[level].waves[wv];
    var dt := HeldFor(wave, wv == 0);
    var sp := h.sp.(waveTimer := dt);
    assert Iota(0) == [];
    SpawnDueKeeps(wave, sp, NEW_VISIT, dt);
    LongFrame(wave, sp, dt);
    FrameResult(levels, h, dt);
  }

  /** The way to a wave: the level by deaths of Boss_1, the waves before it in one frame each. */
  function Way(levels: seq<Level>, level: nat, wv: nat): seq<Tick>
    requires level < |levels| && wv <= |levels[level].waves|
  {
    seq(level, i => BossDown) +
    seq(wv, i requires 0 <= i < wv => Elapse(HeldFor(levels[level].waves[i], i == 0)))
  }

  lemma RunOne(levels: seq<Level>, ticks: seq<Tick>, t: Tick)
    ensures Run(levels, ticks + [t]) == Step(levels, Run(levels, ticks), t)
  {
    assert (ticks + [t])[..|ticks|] == ticks;
  }

  lemma {:induction false} BossesDown(levels: seq<Level>, n: nat)
    ensures Arrived(Run(levels, seq(n, i => BossDown)), n, 0)
    decreases n
  {
    if n > 0 {
      var front := seq(n - 1, i => BossDown);
      BossesDown(levels, n - 1);
      assert seq(n, i => BossDown) == front + [BossDown];
      RunOne(levels, front, BossDown);
    }
  }

  lemma {:induction false} WayArrives(levels: seq<Level>, level: nat, wv: nat)
    requires level < |levels| && wv < |levels[level].waves|
    ensures Arrived(Run(levels, Way(levels, level, wv)), level, wv) && Forward(Way(levels, level, wv))
    decreases wv
  {
    if wv == 0 {
      BossesDown(levels, level);
      assert Way(levels, level, 0) == seq(level, i => BossDown);
    } else {
      var front, last := Way(levels, level, wv - 1), Elapse(HeldFor(levels[level].waves[wv - 1], wv - 1 == 0));
      WayArrives(levels, level, wv - 1);
      assert Way(levels, level, wv) == front + [last];
      RunOne(levels, front, last);
      OneFrameLeaves(levels, Run(levels, front), level, wv - 1);
    }
  }

  /** An enemy due later than its wave is sure to last is missed in a run: the way to its wave and
      one frame. */
  lemma {:induction false} LateEnemyIsMissed(levels: seq<Level>, level: nat, wv: nat, i: nat)
    requires level < |levels| && wv < |levels[level].waves| && i < |levels[level].waves[wv].enemies|
    requires !FitsIn(levels[level].waves[wv], wv == 0, i)
    ensures var ticks := Way(levels, level, wv + 1);
      Forward(ticks) && !AllComplete(levels, Run(levels, ticks).departures)
  {
    var wave := levels[level].waves[wv];
    var front, dt := Way(levels, level, wv), HeldFor(wave, wv == 0);
    WayArrives(levels, level, wv);
    var h := Run(levels, front);
    assert Way(levels, level, wv + 1) == front + [Elapse(dt)];
    RunOne(levels, front, Elapse(dt));
    OneFrameLeaves(levels, h, level, wv);
    SpawnDueStops(wave, h.sp.(waveTimer := dt), dt, i);
    var l := SpawnDue(wave, h.sp.(waveTimer := dt), dt);
    var ds := Run(levels, front + [Elapse(dt)]).departures;
    assert ds[|h.departures|].visit.spawned == Iota(l.sp.index) && |Iota(l.sp.index)| <= i;
    assert !Complete(levels, ds[|h.departures|]);
  }

  /** So the levels for which no run ever leaves a wave incomplete are exactly those whose enemies
      are all due by the time their wave is sure to last. */
  lemma {:induction false} WavesAreCompleteExactly(levels: seq<Level>)
    ensures TimesFit(levels) <==>
      forall ticks :: Forward(ticks) ==> AllComplete(levels, Run(levels, ticks).departures)
  {
    if TimesFit(levels) {
      forall ticks | Forward(ticks)
        ensures AllComplete(levels, Run(levels, ticks).departures)
      {
        WavesAreComplete(levels, ticks);
      }
    } else {
      var l: nat, w: nat :| l < |levels| && w < |levels[l].waves| && !WaveTimesFit(levels[l].waves[w], w == 0);
      var i: nat :| i < |levels[l].waves[w].enemies| && !FitsIn(levels[l].waves[w], w == 0, i);
      LateEnemyIsMissed(levels, l, w, i);
    }
  }

  /** The way to a level's first wave, a frame as long as the warning, and one more frame. */
  function TwoWarnings(levels: seq<Level>, level: nat): seq<Tick>
    requires level < |levels|
  {
    Way(levels, level, 0) + [Elapse(WARNING_TIME)] + [Elapse(0.0)]
  }

  /** A boss due later than its warning, in a wave that lasts longer, is announced twice in a
      run. */
  lemma {:induction false} LateBossIsAnnouncedTwice(levels: seq<Level>, level: nat)
    requires level < |levels| && levels[level].waves != [] && BossWave(levels[level].waves[0])
    requires !WarnsOnce(levels[level].waves[0])
    ensures var ticks := TwoWarnings(levels, level); Forward(ticks) && Run(levels, ticks).visit.warnings == 2
  {
    var front := Way(levels, level, 0);
    WayArrives(levels, level, 0);
    var h := Run(levels, front);
    RunOne(levels, front, Elapse(WARNING_TIME));
    RunOne(levels, front + [Elapse(WARNING_TIME)], Elapse(0.0));
    FollowOne(h.visit, Warned, WARNING_TIME);
    var h1 := Step(levels, h, Elapse(WARNING_TIME));
    assert h1.sp == Spawner(level, 0, 0, WARNING_TIME, false, 0.0) && h1.visit.warnings == 1;
    FollowOne(Age(h1.visit, 0.0), Warned, 0.0);
  }

  /** So no run announces a boss twice in one stay exactly if every such boss is due within the
      four seconds of its warning, or its wave does not last longer than these. */
  lemma {:induction false} BossesAreAnnouncedOnceExactly(levels: seq<Level>)
    ensures OnceOnly(levels) <==> forall ticks :: Forward(ticks) ==> WarnedOnce(Run(levels, ticks))
  {
    if OnceOnly(levels) {
      forall ticks | Forward(ticks)
        ensures WarnedOnce(Run(levels, ticks))
      {
        BossesAreAnnouncedOnce(levels, ticks);
      }
    } else {
      var l: nat :| l < |levels| && levels[l].waves != [] && BossWave(levels[l].waves[0]) &&
                    !WarnsOnce(levels[l].waves[0]);
      LateBossIsAnnouncedTwice(levels, l);
      assert !WarnedOnce(Run(levels, TwoWarnings(levels, l)));
    }
  }
}
