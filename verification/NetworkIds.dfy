/** The discipline of network ids: which entities of a session, live or dead, were given which,
    over every run; and exactly when two of them were given the same. */
module NetworkIds {
  import opened Common
  import opened GameSession
  import opened Replication
  import opened ReplicaRuns

  /** The `n` obstacles are the entities created after the bounds and the rules. */
  predicate IsObstacleEntity(n: nat, e: nat) {
    2 <= e < n + 2
  }

  /** Given to something other than a player or an obstacle. */
  predicate GivenTo(s: State, n: nat, id: nat, e: nat) {
    e in s.entities && !IsObstacleEntity(n, e) && !s.entities[e].player && s.entities[e].netId == Some(id)
  }

  /** The obstacles have the `n` ids from `base` on; beside them no two entities have the same,
      and what is neither player nor obstacle has the ids that the dynamic counter has passed. */
  ghost predicate Registered(s: State, base: nat, n: nat) {
    && IdsOk(s) && s.next >= n + 3
    && (forall e: nat :: IsObstacleEntity(n, e) ==> e in s.entities && ObstacleOk(s.entities[e], base + e - 2))
    && (forall e :: e in s.entities && !IsObstacleEntity(n, e) ==> OtherOk(s, s.entities[e]))
    && (forall e, f :: e in s.entities && f in s.entities && !IsObstacleEntity(n, e) && !IsObstacleEntity(n, f) ==>
          !ShareId(s, e, f))
    && (forall id: nat :: Issued(s, id) ==> exists e :: GivenTo(s, n, id, e))
  }

  predicate ObstacleOk(c: Entity, id: nat) {
    !c.player && c.netId == Some(id)
  }

  predicate OtherOk(s: State, c: Entity) {
    c.netId.Some? && !c.player ==> Issued(s, c.netId.value)
  }

  // The steps.

  predicate SameId(c: Entity, d: Entity) {
    d.netId == c.netId && d.player == c.player
  }

  /** Steps that give no id. */
  lemma SameIds(s: State, t: State, base: nat, n: nat)
    requires Registered(s, base, n) && IdsOk(t) && t.next >= s.next && t.nextNetworkId == s.nextNetworkId
    requires forall e :: e in s.entities ==> e in t.entities && SameId(s.entities[e], t.entities[e])
    requires forall e :: e in t.entities && e !in s.entities ==> t.entities[e].netId.None?
    ensures Registered(t, base, n)
  {
    forall e: nat | IsObstacleEntity(n, e)
      ensures e in t.entities && ObstacleOk(t.entities[e], base + e - 2)
    {
      assert e in s.entities && ObstacleOk(s.entities[e], base + e - 2);
    }
    forall e | e in t.entities && !IsObstacleEntity(n, e)
      ensures OtherOk(t, t.entities[e])
    {
      assert e in s.entities ==> OtherOk(s, s.entities[e]);
    }
    forall e, f | e in t.entities && f in t.entities && !IsObstacleEntity(n, e) && !IsObstacleEntity(n, f)
      ensures !ShareId(t, e, f)
    {
      assert e in s.entities && f in s.entities ==> !ShareId(s, e, f);
    }
    forall id: nat | Issued(t, id)
      ensures exists e :: GivenTo(t, n, id, e)
    {
      assert Issued(s, id);
      var e :| GivenTo(s, n, id, e);
      assert GivenTo(t, n, id, e);
    }
  }

  lemma PlayerIds(s: State, t: State, base: nat, n: nat)
    requires Registered(s, base, n) && Added(s, t, Player(s.nextPlayerId))
    ensures Registered(t, base, n)
  {
    AddedIds(s, t, Player(s.nextPlayerId));
    forall e: nat | IsObstacleEntity(n, e)
      ensures e in t.entities && ObstacleOk(t.entities[e], base + e - 2)
    {
      assert e in s.entities && ObstacleOk(s.entities[e], base + e - 2);
    }
    forall e | e in t.entities && !IsObstacleEntity(n, e)
      ensures OtherOk(t, t.entities[e])
    {
      assert e in s.entities ==> OtherOk(s, s.entities[e]);
    }
    forall e, f | e in t.entities && f in t.entities && !IsObstacleEntity(n, e) && !IsObstacleEntity(n, f)
      ensures !ShareId(t, e, f)
    {
      assert e in s.entities ==> IdFits(s, s.entities[e]);
      assert f in s.entities ==> IdFits(s, s.entities[f]);
      assert e in s.entities && f in s.entities ==> !ShareId(s, e, f);
    }
    forall id: nat | Issued(t, id)
      ensures exists e :: GivenTo(t, n, id, e)
    {
      assert Issued(s, id);
      var e :| GivenTo(s, n, id, e);
      assert GivenTo(t, n, id, e);
    }
  }

  /** The announcement gave the entity its id. */
  predicate NewlyGiven(s: State, order: seq<nat>, n: nat, e: nat) {
    && e in s.entities && s.entities[e].netId.None? && !s.entities[e].player && !IsObstacleEntity(n, e)
    && exists i :: 0 <= i < |Pending(s, order)| && GivenAt(s, order, e, i)
  }

  lemma ObstaclesHaveIds(s: State, base: nat, n: nat, e: nat)
    requires Registered(s, base, n) && IsObstacleEntity(n, e)
    ensures e in s.entities && s.entities[e].netId.Some?
  {
    assert ObstacleOk(s.entities[e], base + e - 2);
  }

  lemma PendingGives(s: State, order: seq<nat>, i: nat)
    requires Wf(s) && Enumerates(order, s.valid) && InRange(Announced(s, order)) && i < |Pending(s, order)|
    ensures var e := Pending(s, order)[i].0;
      && Unannounced(s, e) && GivenAt(s, order, e, i) && !Announced(s, order).entities[e].player
  {
    AnnouncedEntities(s, order);
    var p := Pending(s, order);
    assert Unannounced(s, p[i].0) && p[i].1 == s.nextNetworkId + i;
  }

  lemma AnnouncedPending(s: State, order: seq<nat>, base: nat, n: nat, e: nat, i: nat)
    requires Registered(s, base, n) && Enumerates(order, s.valid) && InRange(Announced(s, order))
    requires i < |Pending(s, order)| && Pending(s, order)[i].0 == e
    ensures var t := Announced(s, order); e in t.entities && !t.entities[e].player && NewlyGiven(s, order, n, e)
  {
    if IsObstacleEntity(n, e) {
      ObstaclesHaveIds(s, base, n, e);
    }
    PendingGives(s, order, i);
  }

  /** What an announcement makes of one entity's id. */
  lemma AnnouncedOne(s: State, order: seq<nat>, base: nat, n: nat, e: nat)
    requires Registered(s, base, n) && Enumerates(order, s.valid) && InRange(Announced(s, order)) && e in s.entities
    ensures var m := Announced(s, order).entities;
      && e in m && m[e].player == s.entities[e].player
      && (m[e].netId == s.entities[e].netId || NewlyGiven(s, order, n, e))
  {
    if HasPending(Pending(s, order), e) {
      var i :| 0 <= i < |Pending(s, order)| && Pending(s, order)[i].0 == e;
      AnnouncedPending(s, order, base, n, e, i);
    } else {
      AnnouncedEntities(s, order);
    }
  }

  lemma AnnouncedDiffer(s: State, order: seq<nat>, base: nat, n: nat, e: nat, f: nat)
    requires Registered(s, base, n) && Enumerates(order, s.valid) && InRange(Announced(s, order))
    requires e in s.entities && f in s.entities && !IsObstacleEntity(n, e) && !IsObstacleEntity(n, f)
    ensures e in Announced(s, order).entities && f in Announced(s, order).entities
    ensures !ShareId(Announced(s, order), e, f)
  {
    AnnouncedOne(s, order, base, n, e);
    AnnouncedOne(s, order, base, n, f);
    assert IdFits(s, s.entities[e]) && IdFits(s, s.entities[f]);
    assert OtherOk(s, s.entities[e]) && OtherOk(s, s.entities[f]) && !ShareId(s, e, f);
  }

  lemma AnnouncedGiven(s: State, order: seq<nat>, base: nat, n: nat, id: nat)
    requires Registered(s, base, n) && Enumerates(order, s.valid) && InRange(Announced(s, order))
    requires Issued(Announced(s, order), id)
    ensures exists e :: GivenTo(Announced(s, order), n, id, e)
  {
    var t, p := Announced(s, order), Pending(s, order);
    if Issued(s, id) {
      var e :| GivenTo(s, n, id, e);
      AnnouncedOne(s, order, base, n, e);
      assert GivenTo(t, n, id, e);
    } else {
      var e := p[id - s.nextNetworkId].0;
      AnnouncedEntities(s, order);
      AnnouncedOne(s, order, base, n, e);
      assert GivenTo(t, n, id, e);
    }
  }

  lemma AnnouncedRegistered(s: State, order: seq<nat>, base: nat, n: nat)
    requires Registered(s, base, n) && Enumerates(order, s.valid) && InRange(Announced(s, order))
    ensures Registered(Announced(s, order), base, n)
  {
    var t := Announced(s, order);
    AnnouncedIdsOk(s, order);
    AnnouncedEntities(s, order);
    forall e: nat | IsObstacleEntity(n, e)
      ensures e in t.entities && ObstacleOk(t.entities[e], base + e - 2)
    {
      assert e in s.entities && ObstacleOk(s.entities[e], base + e - 2);
      AnnouncedOne(s, order, base, n, e);
    }
    forall e | e in t.entities && !IsObstacleEntity(n, e)
      ensures OtherOk(t, t.entities[e])
    {
      AnnouncedOne(s, order, base, n, e);
      assert OtherOk(s, s.entities[e]);
    }
    forall e, f | e in t.entities && f in t.entities && !IsObstacleEntity(n, e) && !IsObstacleEntity(n, f)
      ensures !ShareId(t, e, f)
    {
      AnnouncedDiffer(s, order, base, n, e, f);
    }
    forall id: nat | Issued(t, id)
      ensures exists e :: GivenTo(t, n, id, e)
    {
      AnnouncedGiven(s, order, base, n, id);
    }
  }

  lemma UpdateRegistered(s: State, order: seq<nat>, lastOrder: seq<nat>, base: nat, n: nat)
    requires Registered(s, base, n) && Enumerates(order, s.valid) && InRange(Update(s, order, lastOrder).0)
    ensures Registered(Update(s, order, lastOrder).0, base, n)
  {
    if s.clients != map[] {
      var s1 := Announced(s, order);
      var s2 := NoticesSent(s1);
      AnnouncedRegistered(s, order, base, n);
      NoticesKeep(s1);
      SameIds(s1, s2, base, n);
      IdsFrame(s2, s2.(lastKnown := NetIds(s2)));
      SameIds(s2, s2.(lastKnown := NetIds(s2)), base, n);
    }
  }

  lemma StepRegistered(h: History, step: Step, base: nat, n: nat)
    requires Registered(h.s, base, n) && InRange(Apply(h, step).s)
    ensures Registered(Apply(h, step).s, base, n)
  {
    Counters(h, step);
    match step
    case Create(c) =>
      if Creatable(c) {
        AddedIds(h.s, AddEntity(h.s, c), c);
        SameIds(h.s, AddEntity(h.s, c), base, n);
      }
    case InsertClient =>
      if h.join.Checked? {
        PlayerIds(h.s, Insert(h.s, h.join.addr), base, n);
      }
    case Tick(order, lastOrder) =>
      if Enumerates(order, h.s.valid) && Enumerates(lastOrder, h.s.lastKnown) {
        TickIs(h, order, lastOrder);
        UpdateRegistered(h.s, order, lastOrder, base, n);
      }
    case Die(e) =>
      KilledIdsOk(h.s, e);
      SameIds(h.s, Kill(h.s, e), base, n);
    case Erase(a) =>
      IdsFrame(h.s, Apply(h, step).s);
      SameIds(h.s, Apply(h, step).s, base, n);
    case BeginJoin(_) =>
    case SendSnapshot(_) =>
  }

  lemma StartRegistered(base: nat, n: nat)
    requires BaseOk(base)
    ensures Registered(Started(base, n), base, n)
  {
    StartedEntities(base, n);
    StartIds(base, n);
  }

  lemma {:induction false} RunRegistered(base: nat, n: nat, steps: seq<Step>)
    requires BaseOk(base) && InRange(Run(Start(base, n), steps).s)
    ensures Registered(Run(Start(base, n), steps).s, base, n)
    decreases |steps|
  {
    if steps == [] {
      StartRegistered(base, n);
    } else {
      var front, last := steps[..|steps| - 1], steps[|steps| - 1];
      Counters(Run(Start(base, n), front), last);
      RunRegistered(base, n, front);
      StepRegistered(Run(Start(base, n), front), last, base, n);
    }
  }

  // When ids are shared.

  /** Two entities of the session, live or dead, were given this id. */
  ghost predicate Shared(s: State, id: nat) {
    exists e, f :: e in s.entities && f in s.entities && ShareId(s, e, f) && s.entities[e].netId == Some(id)
  }

  lemma SharedInState(s: State, base: nat, n: nat, id: nat)
    requires Registered(s, base, n) && BaseOk(base) && s.nextPlayerId <= FIRST_OBSTACLE_ID
    ensures Shared(s, id) <==> base <= id < base + n && Issued(s, id)
  {
    if e, f :| e in s.entities && f in s.entities && ShareId(s, e, f) && s.entities[e].netId == Some(id) {
      assert IdFits(s, s.entities[e]) && IdFits(s, s.entities[f]);
      assert IsObstacleEntity(n, e) ==> ObstacleOk(s.entities[e], base + e - 2);
      assert IsObstacleEntity(n, f) ==> ObstacleOk(s.entities[f], base + f - 2);
      assert IsObstacleEntity(n, e) || IsObstacleEntity(n, f);
    }
    if base <= id < base + n && Issued(s, id) {
      var e: nat := id - base + 2;
      assert IsObstacleEntity(n, e) && ObstacleOk(s.entities[e], id);
      var f :| GivenTo(s, n, id, f);
      assert ShareId(s, e, f);
    }
  }

  /** In every run, exactly these ids are shared: an obstacle's that the dynamic counter has
      passed. */
  lemma SharedExactly(base: nat, n: nat, steps: seq<Step>, id: nat)
    requires BaseOk(base) && InRange(Run(Start(base, n), steps).s)
    ensures var s := Run(Start(base, n), steps).s;
      Shared(s, id) <==> base <= id < base + n && 20000 <= id < s.nextNetworkId
  {
    RunRegistered(base, n, steps);
    SharedInState(Run(Start(base, n), steps).s, base, n, id);
  }

  /** So no id is ever given out twice, if and only if the session has no obstacles, or they all
      lie below the dynamic range, or the dynamic counter has not reached them. */
  lemma IdsAreDistinctExactly(base: nat, n: nat, steps: seq<Step>)
    requires BaseOk(base) && InRange(Run(Start(base, n), steps).s)
    ensures var s := Run(Start(base, n), steps).s;
      (forall id: nat :: !Shared(s, id)) <==>
      n == 0 || base + n <= 20000 || s.nextNetworkId <= base || s.nextNetworkId <= 20000
  {
    var s := Run(Start(base, n), steps).s;
    forall id: nat
      ensures Shared(s, id) <==> base <= id < base + n && Issued(s, id)
    {
      SharedExactly(base, n, steps, id);
    }
    var first := if base < FIRST_DYNAMIC_ID then FIRST_DYNAMIC_ID else base;
    assert Shared(s, first) <==> base <= first < base + n && Issued(s, first);
  }

  lemma IdStays(h: History, step: Step, e: nat)
    requires IdsOk(h.s) && InRange(Apply(h, step).s) && e in h.s.entities && h.s.entities[e].netId.Some?
    ensures var m := Apply(h, step).s.entities; e in m && m[e].netId == h.s.entities[e].netId
  {
    if step.Tick? && Enumerates(step.order, h.s.valid) && Enumerates(step.lastOrder, h.s.lastKnown) {
      TickIs(h, step.order, step.lastOrder);
      if h.s.clients != map[] {
        AnnouncedEntities(h.s, step.order);
        assert !HasPending(Pending(h.s, step.order), e);
      }
    }
  }

  /** An id once given stays with its entity for ever, dead or alive; and another entity has it
      exactly when it is an obstacle's that the dynamic counter has passed. */
  lemma {:induction false} IdsAreNeverReissued(base: nat, n: nat, before: seq<Step>, after: seq<Step>, e: nat)
    requires BaseOk(base) && InRange(Run(Start(base, n), before + after).s)
    requires var s := Run(Start(base, n), before).s; e in s.entities && s.entities[e].netId.Some?
    ensures var s, t := Run(Start(base, n), before).s, Run(Start(base, n), before + after).s;
      && e in t.entities && t.entities[e].netId == s.entities[e].netId
      && (var id := t.entities[e].netId.value;
          (exists f :: f in t.entities && ShareId(t, e, f)) <==> base <= id < base + n && Issued(t, id))
    decreases |after|
  {
    var start := Start(base, n);
    RunRegistered(base, n, before + after);
    if after == [] {
      assert before + after == before;
    } else {
      var front, last := after[..|after| - 1], after[|after| - 1];
      var h := Run(start, before + front);
      RunPrefix(start, before, after);
      Counters(h, last);
      RunRegistered(base, n, before + front);
      IdsAreNeverReissued(base, n, before, front, e);
      IdStays(h, last, e);
    }
    PartnerExactly(Run(start, before + after).s, base, n, e);
  }

  lemma PartnerExactly(s: State, base: nat, n: nat, e: nat)
    requires Registered(s, base, n) && BaseOk(base) && s.nextPlayerId <= FIRST_OBSTACLE_ID
    requires e in s.entities && s.entities[e].netId.Some?
    ensures var id := s.entities[e].netId.value;
      (exists f :: f in s.entities && ShareId(s, e, f)) <==> base <= id < base + n && Issued(s, id)
  {
    var id := s.entities[e].netId.value;
    SharedInState(s, base, n, id);
    if e1, f1 :| e1 in s.entities && f1 in s.entities && ShareId(s, e1, f1) && s.entities[e1].netId == Some(id) {
      assert ShareId(s, e, if e1 == e then f1 else e1);
    }
  }

  // Two live entities with one id, in a run.

  const BULLET := Entity(None, true, true, false, false, None)

  function Creates(count: nat): seq<Step> {
    seq(count, i => Create(BULLET))
  }

  /** A session with one client and `count` entities created since. */
  ghost predicate Crowd(s: State, base: nat, n: nat, count: nat) {
    && s.next == n + 4 + count && (forall e: nat :: e in s.valid <==> e < s.next) && Wf(s)
    && s.clients != map[] && s.lastKnown == {} && s.nextNetworkId == FIRST_DYNAMIC_ID && s.nextPlayerId == 2
    && (forall e: nat :: e < n + 4 ==> !Unannounced(s, e))
    && (forall e: nat :: e < s.next ==> s.entities[e].stage.None?)
    && (forall e: nat :: n + 4 <= e < s.next ==> s.entities[e] == BULLET)
    && (forall e: nat :: IsObstacleEntity(n, e) ==> s.entities[e] == Obstacle(base + e - 2))
  }

  lemma CrowdStarts(base: nat, n: nat)
    ensures Crowd(Insert(Started(base, n), "a"), base, n, 0)
  {
    StartedEntities(base, n);
    var s, t := Started(base, n), Insert(Started(base, n), "a");
    assert "a" in t.clients;
    forall e: nat | e < n + 4
      ensures !Unannounced(t, e) && t.entities[e].stage.None?
      ensures IsObstacleEntity(n, e) ==> t.entities[e] == Obstacle(base + e - 2)
    {
      assert e < n + 3 ==> e in s.entities && t.entities[e] == s.entities[e];
    }
  }

  lemma CrowdGrows(s: State, base: nat, n: nat, count: nat)
    requires Crowd(s, base, n, count)
    ensures Crowd(AddEntity(s, BULLET), base, n, count + 1)
  {
    forall e: nat | e < n + 4
      ensures !Unannounced(AddEntity(s, BULLET), e)
    {
      assert !Unannounced(s, e);
    }
  }

  lemma {:induction false} AfterCreates(base: nat, n: nat, count: nat)
    ensures Crowd(Run(Start(base, n), JOIN + Creates(count)).s, base, n, count)
    decreases count
  {
    if count == 0 {
      assert JOIN + Creates(0) == JOIN;
      FirstJoin(base, n);
      CrowdStarts(base, n);
    } else {
      AfterCreates(base, n, count - 1);
      assert JOIN + Creates(count) == (JOIN + Creates(count - 1)) + [Create(BULLET)];
      RunOne(Start(base, n), JOIN + Creates(count - 1), Create(BULLET));
      CrowdGrows(Run(Start(base, n), JOIN + Creates(count - 1)).s, base, n, count - 1);
    }
  }

  lemma {:induction false} PendingTail(s: State, known: nat, count: nat)
    requires forall e: nat :: e < known ==> !Unannounced(s, e)
    requires forall e: nat :: known <= e < known + count ==> Unannounced(s, e)
    ensures var p := Pending(s, Upto(known + count));
      && |p| == count
      && (count > 0 ==> p[count - 1] == (known + count - 1, (s.nextNetworkId + count - 1) % U32_LIMIT))
    decreases count, known
  {
    var m := known + count;
    if m > 0 {
      assert Upto(m)[..m - 1] == Upto(m - 1);
      if count == 0 {
        PendingTail(s, known - 1, 0);
      } else {
        PendingTail(s, known, count - 1);
      }
    }
  }

  /** How many entities it takes for the dynamic counter to reach the first obstacle in its
      range. */
  function Reach(base: nat): nat {
    if base < FIRST_DYNAMIC_ID then 1 else base - FIRST_DYNAMIC_ID + 1
  }

  /** The run: one client, so many entities, and a tick. */
  function Overrun(base: nat, n: nat): seq<Step> {
    JOIN + Creates(Reach(base)) + [Tick(Upto(n + 4 + Reach(base)), [])]
  }

  ghost predicate LiveTwins(s: State) {
    exists e, f :: e in s.valid && f in s.valid && e in s.entities && f in s.entities && ShareId(s, e, f)
  }

  /** As soon as a session has an obstacle in the dynamic range, a run with all counters in range
      leads to two live entities with one id. */
  lemma OverrunIsReached(base: nat, n: nat)
    requires BaseOk(base) && n > 0 && base + n > FIRST_DYNAMIC_ID && base < U32_LIMIT
    ensures var s := Run(Start(base, n), Overrun(base, n)).s; InRange(s) && LiveTwins(s)
  {
    var start, before := Start(base, n), JOIN + Creates(Reach(base));
    AfterCreates(base, n, Reach(base));
    CrowdTicks(start, before, base, n);
    assert Overrun(base, n) == before + [Tick(Upto(n + 4 + Reach(base)), [])];
  }

  lemma CrowdTicks(start: History, before: seq<Step>, base: nat, n: nat)
    requires Crowd(Run(start, before).s, base, n, Reach(base))
    requires n > 0 && base + n > FIRST_DYNAMIC_ID && base < U32_LIMIT
    ensures var s := Run(start, before + [Tick(Upto(n + 4 + Reach(base)), [])]).s; InRange(s) && LiveTwins(s)
  {
    var h := Run(start, before);
    assert h.s.next == n + 4 + Reach(base);
    RunOne(start, before, Tick(Upto(h.s.next), []));
    CrowdShares(h.s, base, n);
    TickIs(h, Upto(h.s.next), []);
  }

  lemma CrowdShares(s: State, base: nat, n: nat)
    requires Crowd(s, base, n, Reach(base)) && n > 0 && base + n > FIRST_DYNAMIC_ID && base < U32_LIMIT
    ensures var t := Update(s, Upto(s.next), []).0;
      Enumerates(Upto(s.next), s.valid) && Enumerates([], s.lastKnown) && InRange(t) && LiveTwins(t)
  {
    var order, count := Upto(s.next), Reach(base);
    UptoEnumerates(s.next, s.valid);
    PendingTail(s, n + 4, count);
    UpdateFrame(s, order, []);
    LastShares(s, base, n, FIRST_DYNAMIC_ID + count - 1 - base + 2, s.next - 1, count - 1);
  }

  /** The obstacle and the last of the created entities. */
  lemma LastShares(s: State, base: nat, n: nat, e: nat, f: nat, i: nat)
    requires Crowd(s, base, n, i + 1) && Enumerates(Upto(s.next), s.valid)
    requires var p := Pending(s, Upto(s.next)); |p| == i + 1 && p[i].0 == f && s.nextNetworkId + |p| <= U32_LIMIT
    requires IsObstacleEntity(n, e) && base + e - 2 == FIRST_DYNAMIC_ID + i && f == s.next - 1
    ensures LiveTwins(Update(s, Upto(s.next), []).0)
  {
    var order := Upto(s.next);
    var t := Update(s, order, []).0;
    AnnouncedEntities(s, order);
    assert s.entities[e] == Obstacle(base + e - 2);
    assert !HasPending(Pending(s, order), e);
    assert Announced(s, order).entities[f].netId == Some(FIRST_DYNAMIC_ID + i);
    assert e in s.valid && f in s.valid;
    assert !UnsentNotice(Announced(s, order), e) && !UnsentNotice(Announced(s, order), f);
    assert ShareId(t, e, f);
  }
}
