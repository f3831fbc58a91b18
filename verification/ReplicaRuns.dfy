/** What holds of a session after every run of joins, leaves, game systems and ticks: its clients,
    whatever its counters; and what their copies of the entity set hold, as long as the ids of
    players stay below those of obstacles and the dynamic counter inside its 32 bits. */
module ReplicaRuns {
  import opened Common
  import opened GameSession
  import opened Replication

  // One step.

  lemma Counters(h: History, step: Step)
    ensures Apply(h, step).s.nextPlayerId >= h.s.nextPlayerId && Apply(h, step).s.nextNetworkId >= h.s.nextNetworkId
  {
  }

  /** With no clients an update does nothing whatever. */
  lemma IdleTick(h: History, order: seq<nat>, lastOrder: seq<nat>)
    requires ClientsOk(h) && h.s.clients == map[]
    ensures Apply(h, Tick(order, lastOrder)) == h
  {
    assert h.sent.Keys == {};
    assert h.sent == map[] && Tell(h, []) == map[];
  }

  lemma UpdateFrame(s: State, order: seq<nat>, lastOrder: seq<nat>)
    ensures var t := Update(s, order, lastOrder).0;
      && t.clients == s.clients && t.next == s.next && t.nextPlayerId == s.nextPlayerId
      && (s.clients != map[] ==> t.nextNetworkId == s.nextNetworkId + |Pending(s, order)|)
  {
  }

  lemma TickIs(h: History, order: seq<nat>, lastOrder: seq<nat>)
    requires Enumerates(order, h.s.valid) && Enumerates(lastOrder, h.s.lastKnown)
    ensures Apply(h, Tick(order, lastOrder)).s == Update(h.s, order, lastOrder).0
  {
  }

  lemma TickStep(h: History, order: seq<nat>, lastOrder: seq<nat>)
    requires Inv(h) && InRange(Apply(h, Tick(order, lastOrder)).s)
    ensures Inv(Apply(h, Tick(order, lastOrder)))
  {
    if h.s.clients == map[] {
      assert ClientsOk(h);
      IdleTick(h, order, lastOrder);
    } else if Enumerates(order, h.s.valid) && Enumerates(lastOrder, h.s.lastKnown) {
      TickIs(h, order, lastOrder);
      UpdateFrame(h.s, order, lastOrder);
      TickKeeps(h, order, lastOrder);
    }
  }

  /** Every step keeps the invariant. */
  lemma StepKeeps(h: History, step: Step)
    requires Inv(h) && InRange(Apply(h, step).s)
    ensures Inv(Apply(h, step))
  {
    Counters(h, step);
    match step
    case Create(c) => if Creatable(c) { CreateKeeps(h, c); }
    case Die(e) => KillKeeps(h, e);
    case BeginJoin(a) => if h.join == NoJoin && CheckJoin(h.s, a) == Proceed { BeginKeeps(h, a); }
    case InsertClient => if h.join.Checked? { InsertKeeps(h); }
    case SendSnapshot(order) => if h.join.Inserted? && Enumerates(order, h.s.valid) { SnapshotKeeps(h, order); }
    case Erase(a) => EraseKeeps(h, a);
    case Tick(order, lastOrder) => TickStep(h, order, lastOrder);
  }

  // The start of a session.

  /** A level's obstacles and their ids. */
  lemma {:induction false} ObstacleEntities(s: State, base: nat, n: nat)
    requires Wf(s)
    ensures var t := AddObstacles(s, base, n);
      && Wf(t) && t == s.(next := s.next + n, valid := t.valid, entities := t.entities)
      && (forall e: nat :: e in t.valid <==> e in s.valid || s.next <= e < s.next + n)
      && (forall e :: s.next <= e < s.next + n ==> e in t.entities && t.entities[e] == Obstacle(base + e - s.next))
      && (forall e :: e in s.entities ==> e in t.entities && t.entities[e] == s.entities[e])
    decreases n
  {
    if n > 0 {
      ObstacleEntities(s, base, n - 1);
    }
  }

  lemma AddingKeepsWf(s: State, c: Entity)
    requires Wf(s)
    ensures Wf(AddEntity(s, c))
  {
  }

  lemma StartedEntities(base: nat, n: nat)
    ensures var t := Started(base, n);
      && Wf(t) && t == EMPTY.(next := n + 3, valid := t.valid, entities := t.entities)
      && (forall e: nat :: e in t.valid <==> e < n + 3)
      && (forall e :: e in t.entities ==>
            if 2 <= e < n + 2 then t.entities[e] == Obstacle(base + e - 2)
            else t.entities[e] == WORLD_ENTITY || t.entities[e] == RULES_ENTITY)
  {
    var s := AddEntity(AddEntity(EMPTY, WORLD_ENTITY), RULES_ENTITY);
    AddingKeepsWf(EMPTY, WORLD_ENTITY);
    AddingKeepsWf(AddEntity(EMPTY, WORLD_ENTITY), RULES_ENTITY);
    ObstacleEntities(s, base, n);
    assert s.valid == {0, 1};
  }

  /** The obstacle counter is shared by all sessions of a server and starts where players' ids
      end; a session finds it wherever the sessions before have left it. */
  predicate BaseOk(base: nat) {
    FIRST_OBSTACLE_ID <= base
  }

  lemma StartIds(base: nat, n: nat)
    requires BaseOk(base)
    ensures IdsOk(Started(base, n))
  {
    StartedEntities(base, n);
    var t := Started(base, n);
    forall e | e in t.entities
      ensures IdFits(t, t.entities[e]) && !t.entities[e].stage.Some?
    {
    }
  }

  lemma StartIsGood(base: nat, n: nat)
    requires BaseOk(base)
    ensures Inv(Start(base, n))
  {
    StartIds(base, n);
    StartedEntities(base, n);
  }

  // All runs.

  /** Every reachable state is good: ids, clients and copies. */
  lemma {:induction false} RunKeeps(base: nat, n: nat, steps: seq<Step>)
    requires BaseOk(base) && InRange(Run(Start(base, n), steps).s)
    ensures Inv(Run(Start(base, n), steps))
    decreases |steps|
  {
    if steps == [] {
      StartIsGood(base, n);
    } else {
      var front, last := steps[..|steps| - 1], steps[|steps| - 1];
      Counters(Run(Start(base, n), front), last);
      RunKeeps(base, n, front);
      StepKeeps(Run(Start(base, n), front), last);
    }
  }

  // The clients, in every run.

  lemma TickClients(h: History, order: seq<nat>, lastOrder: seq<nat>)
    requires ClientsOk(h)
    ensures ClientsOk(Apply(h, Tick(order, lastOrder)))
  {
    var h' := Apply(h, Tick(order, lastOrder));
    UpdateFrame(h.s, order, lastOrder);
    assert h'.sent.Keys == h.sent.Keys && h'.lost == h.lost && h'.join == h.join && h'.synced == h.synced;
    ClientsFrame(h, h');
  }

  lemma DieClients(h: History, e: nat)
    requires ClientsOk(h)
    ensures ClientsOk(Apply(h, Die(e)))
  {
    var h' := Apply(h, Die(e));
    assert h'.lost.Keys == h.lost.Keys;
    ClientsFrame(h, h');
  }

  /** Every step keeps the clients in order, whatever the ids. */
  lemma ClientsStep(h: History, step: Step)
    requires ClientsOk(h)
    ensures ClientsOk(Apply(h, step))
  {
    match step
    case Create(c) => if Creatable(c) { ClientsFrame(h, Apply(h, step)); }
    case Die(e) => DieClients(h, e);
    case BeginJoin(a) => assert h.s.clients.Keys == Connected(h.s);
    case InsertClient => if h.join.Checked? { InsertClients(h); }
    case SendSnapshot(order) => SnapshotFrame(h, order);
    case Erase(a) => EraseClients(h, a);
    case Tick(order, lastOrder) => TickClients(h, order, lastOrder);
  }

  lemma {:induction false} RunClients(base: nat, n: nat, steps: seq<Step>)
    ensures ClientsOk(Run(Start(base, n), steps))
    decreases |steps|
  {
    if steps == [] {
      StartedEntities(base, n);
    } else {
      RunClients(base, n, steps[..|steps| - 1]);
      ClientsStep(Run(Start(base, n), steps[..|steps| - 1]), steps[|steps| - 1]);
    }
  }

  /** At most four clients at any time, though joining checks and inserts separately; with
      distinct player ids and entities, all of them below their counters. */
  lemma JoinCap(base: nat, n: nat, steps: seq<Step>)
    ensures var s := Run(Start(base, n), steps).s;
      && |s.clients| <= 4
      && (forall a :: a in s.clients ==>
            s.clients[a].player < s.nextPlayerId && s.clients[a].entity < s.next)
      && (forall a, b :: a in s.clients && b in s.clients && a != b ==>
            s.clients[a].player != s.clients[b].player && s.clients[a].entity != s.clients[b].entity)
  {
    RunClients(base, n, steps);
    assert ClientsDistinct(Run(Start(base, n), steps).s);
  }

  lemma RunPrefix(start: History, a: seq<Step>, b: seq<Step>)
    requires b != []
    ensures Run(start, a + b) == Apply(Run(start, a + b[..|b| - 1]), b[|b| - 1])
  {
    assert (a + b)[..|a + b| - 1] == a + b[..|b| - 1];
  }

  lemma EntryStays(h: History, step: Step, a: Addr)
    requires ClientsOk(h) && a in h.s.clients && step != Erase(a)
    ensures var m := Apply(h, step).s.clients; a in m && m[a] == h.s.clients[a]
  {
    assert h.join.Checked? ==> h.join.addr != a;
    if step.Tick? {
      UpdateFrame(h.s, step.order, step.lastOrder);
    }
  }

  lemma {:induction false} EntryStaysOn(base: nat, n: nat, before: seq<Step>, after: seq<Step>, a: Addr)
    requires a in Run(Start(base, n), before).s.clients && Erase(a) !in after
    ensures var m, m' := Run(Start(base, n), before).s.clients, Run(Start(base, n), before + after).s.clients;
      a in m' && m'[a] == m[a]
    decreases |after|
  {
    if after == [] {
      assert before + after == before;
    } else {
      var front, last := after[..|after| - 1], after[|after| - 1];
      assert last in after;
      RunPrefix(Start(base, n), before, after);
      EntryStaysOn(base, n, before, front, a);
      RunClients(base, n, before + front);
      EntryStays(Run(Start(base, n), before + front), last, a);
    }
  }

  /** Until it is erased, a client keeps its entry through any steps, and asking to join again
      only ever gets it the same player id: nothing is added. */
  lemma RejoinGetsTheSameId(base: nat, n: nat, before: seq<Step>, after: seq<Step>, a: Addr)
    requires a in Run(Start(base, n), before).s.clients && Erase(a) !in after
    ensures var m, h' := Run(Start(base, n), before).s.clients, Run(Start(base, n), before + after);
      && a in h'.s.clients && h'.s.clients[a] == m[a]
      && CheckJoin(h'.s, a) == AlreadyIn(m[a].player) && Apply(h', BeginJoin(a)) == h'
  {
    EntryStaysOn(base, n, before, after, a);
  }

  // What a client has lost.

  /** The client was told of the id of an entity that dies before the first broadcast with
      clients. */
  predicate Loses(h: History, step: Step, a: Addr, id: nat) {
    && step.Die? && !h.updated && a in h.sent
    && Replicated(h.s, step.entity) && h.s.entities[step.entity].netId.value == id && id in Copy(h, a)
  }

  /** The client leaves, or starts afresh. */
  predicate Resets(h: History, step: Step, a: Addr) {
    step == Erase(a) || (step.InsertClient? && h.join == Checked(a))
  }

  /** Step `k` is such a death, and the client has been there ever since. */
  predicate LosesAt(start: History, steps: seq<Step>, a: Addr, id: nat, k: nat) {
    && k < |steps| && Loses(Run(start, steps[..k]), steps[k], a, id)
    && forall j :: k < j < |steps| ==> !Resets(Run(start, steps[..j]), steps[j], a)
  }

  lemma DieLost(h: History, e: nat, a: Addr, id: nat)
    requires ClientsOk(h) && a in h.sent
    ensures a in Apply(h, Die(e)).lost
    ensures id in Apply(h, Die(e)).lost[a] <==> id in h.lost[a] || Loses(h, Die(e), a, id)
  {
  }

  lemma LostStep(h: History, step: Step, a: Addr, id: nat)
    requires ClientsOk(h) && a in h.sent && a in Apply(h, step).sent && a in Apply(h, step).lost
    requires !Resets(h, step, a)
    ensures id in Apply(h, step).lost[a] <==> id in h.lost[a] || Loses(h, step, a, id)
  {
    assert a in h.lost;
    if step.Die? {
      DieLost(h, step.entity, a, id);
    }
  }

  lemma LostReset(h: History, step: Step, a: Addr, id: nat)
    requires a in Apply(h, step).lost && Resets(h, step, a)
    ensures Apply(h, step).lost[a] == {} && !Loses(h, step, a, id)
  {
  }

  lemma NewcomerResets(h: History, step: Step, a: Addr)
    requires ClientsOk(h) && a in Apply(h, step).sent && a !in h.sent
    ensures Resets(h, step, a)
  {
  }

  lemma LostAtReset(start: History, steps: seq<Step>, a: Addr, id: nat)
    requires steps != []
    requires var h, last := Run(start, steps[..|steps| - 1]), steps[|steps| - 1];
      Resets(h, last, a) && !Loses(h, last, a, id)
    ensures !exists k :: LosesAt(start, steps, a, id, k)
  {
    var m := |steps| - 1;
    assert Resets(Run(start, steps[..m]), steps[m], a);
  }

  /** The ids a client has lost are those of just such deaths. */
  lemma {:induction false} LostExactly(base: nat, n: nat, steps: seq<Step>, a: Addr, id: nat)
    requires a in Run(Start(base, n), steps).s.clients
    ensures var start := Start(base, n);
      && a in Run(start, steps).lost
      && (id in Run(start, steps).lost[a] <==> exists k :: LosesAt(start, steps, a, id, k))
    decreases |steps|
  {
    var start := Start(base, n);
    RunClients(base, n, steps);
    if steps != [] {
      var front, last := steps[..|steps| - 1], steps[|steps| - 1];
      var h := Run(start, front);
      RunClients(base, n, front);
      if a !in h.sent {
        NewcomerResets(h, last, a);
      }
      if Resets(h, last, a) {
        LostReset(h, last, a, id);
        LostAtReset(start, steps, a, id);
      } else {
        LostExactly(base, n, front, a, id);
        LostStep(h, last, a, id);
        LosesAtStep(start, steps, a, id);
      }
    } else {
      StartedEntities(base, n);
    }
  }

  lemma LosesAtStep(start: History, steps: seq<Step>, a: Addr, id: nat)
    requires steps != []
    requires var m := |steps| - 1; !Resets(Run(start, steps[..m]), steps[m], a)
    ensures var m := |steps| - 1;
      (exists k :: LosesAt(start, steps, a, id, k)) <==>
      (exists k :: LosesAt(start, steps[..m], a, id, k)) || Loses(Run(start, steps[..m]), steps[m], a, id)
  {
    var m := |steps| - 1;
    var front := steps[..m];
    assert forall j :: 0 <= j <= m ==> front[..j] == steps[..j];
    forall k: nat | k < m
      ensures LosesAt(start, steps, a, id, k) <==> LosesAt(start, front, a, id, k)
    {
      if LosesAt(start, front, a, id, k) {
        forall j | k < j < |steps|
          ensures !Resets(Run(start, steps[..j]), steps[j], a)
        {
          if j < m {
            assert front[..j] == steps[..j];
          }
        }
      }
      if LosesAt(start, steps, a, id, k) {
        forall j | k < j < |front|
          ensures !Resets(Run(start, front[..j]), front[j], a)
        {
          assert front[..j] == steps[..j];
        }
      }
    }
    assert LosesAt(start, steps, a, id, m) <==> Loses(Run(start, front), steps[m], a, id);
    if k :| LosesAt(start, front, a, id, k) {
      assert LosesAt(start, steps, a, id, k);
    }
  }

  // The copies.

  lemma SyncedIsThere(h: History, a: Addr)
    requires ClientsOk(h) && a in h.synced
    ensures a in h.s.clients && a in h.sent && a in h.lost && h.s.clients != map[]
  {
  }

  lemma TickIsExact(h: History, order: seq<nat>, lastOrder: seq<nat>, a: Addr)
    requires Inv(h) && a in h.synced && InRange(Update(h.s, order, lastOrder).0)
    requires Enumerates(order, h.s.valid) && Enumerates(lastOrder, h.s.lastKnown)
    ensures var h' := Apply(h, Tick(order, lastOrder));
      && a in h'.sent && a in h'.lost && h'.lost == h.lost
      && Copy(h', a) == NonPlayerIds(h'.s) + Astray(h', a) && NonPlayerIds(h'.s) !! Astray(h', a)
  {
    SyncedIsThere(h, a);
    UpdateFrame(h.s, order, lastOrder);
    SyncedCopy(h, order, lastOrder, a);
  }

  lemma SyncedCopy(h: History, order: seq<nat>, lastOrder: seq<nat>, a: Addr)
    requires Inv(h) && a in h.synced && a in h.sent && h.s.clients != map[] && h.s.nextPlayerId <= FIRST_OBSTACLE_ID
    requires Enumerates(order, h.s.valid) && Enumerates(lastOrder, h.s.lastKnown)
    requires InRange(Update(h.s, order, lastOrder).0)
    ensures var h' := Apply(h, Tick(order, lastOrder));
      && a in h'.sent && a in h'.lost && h'.lost == h.lost
      && Copy(h', a) == NonPlayerIds(h'.s) + Astray(h', a) && NonPlayerIds(h'.s) !! Astray(h', a)
  {
    TickCopy(h, order, lastOrder, a);
    assert Apply(h, Tick(order, lastOrder)).synced == h.synced;
  }

  /** The main theorem. Whatever happened before, after a tick a client that has had its snapshot
      holds the ids of all live networked entities but players. What it holds besides are exactly
      the ids it was told of whose entity died before the session's first broadcast with clients,
      and that the dynamic counter has not passed since. So its copy is exact if and only if there
      are none of these. */
  lemma ReplicaIsExact(base: nat, n: nat, steps: seq<Step>, order: seq<nat>, lastOrder: seq<nat>, a: Addr)
    requires BaseOk(base)
    requires var h := Run(Start(base, n), steps);
      && a in h.synced && Enumerates(order, h.s.valid) && Enumerates(lastOrder, h.s.lastKnown)
      && InRange(Apply(h, Tick(order, lastOrder)).s)
    ensures var start := Start(base, n);
      var h' := Apply(Run(start, steps), Tick(order, lastOrder));
      && a in h'.sent && NonPlayerIds(h'.s) <= Copy(h', a)
      && (forall id :: id in Copy(h', a) && id !in NonPlayerIds(h'.s) <==>
            (exists k :: LosesAt(start, steps, a, id, k)) && !Issued(h'.s, id))
      && (Copy(h', a) == NonPlayerIds(h'.s) <==>
            forall id, k :: LosesAt(start, steps, a, id, k) ==> Issued(h'.s, id))
  {
    var start := Start(base, n);
    var h := Run(start, steps);
    var h' := Apply(h, Tick(order, lastOrder));
    Counters(h, Tick(order, lastOrder));
    RunKeeps(base, n, steps);
    SyncedIsThere(h, a);
    TickIs(h, order, lastOrder);
    TickIsExact(h, order, lastOrder, a);
    forall id: nat
      ensures id in h.lost[a] <==> exists k :: LosesAt(start, steps, a, id, k)
    {
      LostExactly(base, n, steps, a, id);
    }
    ExactIff(Copy(h', a), NonPlayerIds(h'.s), Astray(h', a));
    forall id, k | LosesAt(start, steps, a, id, k)
      ensures id in h.lost[a]
    {
    }
  }

  lemma ExactIff(copy: set<nat>, np: set<nat>, astray: set<nat>)
    requires copy == np + astray && np !! astray
    ensures copy == np <==> astray == {}
    ensures forall id :: id in copy && id !in np <==> id in astray
  {
    if id :| id in astray {
      assert id in copy;
    }
  }

  // A loss that does happen.

  lemma RunOne(start: History, steps: seq<Step>, step: Step)
    ensures Run(start, steps + [step]) == Apply(Run(start, steps), step)
  {
    assert (steps + [step])[..|steps|] == steps;
  }

  const JOIN := [BeginJoin("a"), InsertClient]

  lemma RunJoin(start: History)
    ensures Run(start, JOIN) == Apply(Apply(start, BeginJoin("a")), InsertClient)
  {
    RunOne(start, [], BeginJoin("a"));
    RunOne(start, [BeginJoin("a")], InsertClient);
    assert JOIN == [BeginJoin("a")] + [InsertClient] && [BeginJoin("a")] == [] + [BeginJoin("a")];
  }

  lemma JoinSteps(h: History)
    requires h.s.clients == map[] && h.join == NoJoin
    ensures var h' := Apply(Apply(h, BeginJoin("a")), InsertClient);
      && h'.s == Insert(h.s, "a") && h'.join == Inserted("a") && h'.updated == h.updated
      && "a" in h'.sent && "a" in h'.lost && h'.lost["a"] == {}
  {
    assert Connected(h.s) == {};
  }

  /** The first client in a new session. */
  lemma FirstJoin(base: nat, n: nat)
    ensures var h := Run(Start(base, n), JOIN);
      && h.s == Insert(Started(base, n), "a") && h.join == Inserted("a") && !h.updated
      && "a" in h.sent && "a" in h.lost && h.lost["a"] == {}
  {
    StartedEntities(base, n);
    RunJoin(Start(base, n));
    JoinSteps(Start(base, n));
  }

  /** The ids below `n` in order. */
  function Upto(n: nat): (s: seq<nat>)
    ensures |s| == n && forall i :: 0 <= i < n ==> s[i] == i
  {
    seq(n, i => i)
  }

  lemma UptoEnumerates(n: nat, s: set<nat>)
    requires forall e: nat :: e in s <==> e < n
    ensures Enumerates(Upto(n), s)
  {
    forall e | e in s
      ensures e in Upto(n)
    {
      assert Upto(n)[e] == e;
    }
  }

  const SYNCED := JOIN + [SendSnapshot(Upto(5))]
  const EARLY_DEATH := SYNCED + [Die(2)]

  lemma SyncedState()
    ensures var h := Run(Start(10000, 1), SYNCED);
      && h.s == Insert(Started(10000, 1), "a") && !h.updated && "a" in h.synced && "a" in h.sent && "a" in h.lost
  {
    FirstJoin(10000, 1);
    StartedEntities(10000, 1);
    UptoEnumerates(5, Insert(Started(10000, 1), "a").valid);
    RunOne(Start(10000, 1), JOIN, SendSnapshot(Upto(5)));
  }

  /** After the snapshot the client holds the obstacle's id. */
  lemma SyncedHolds()
    ensures var h := Run(Start(10000, 1), SYNCED);
      Replicated(h.s, 2) && h.s.entities[2].netId == Some(10000) && "a" in h.sent && 10000 in Copy(h, "a")
  {
    var h := Run(Start(10000, 1), SYNCED);
    SyncedState();
    StartedEntities(10000, 1);
    RunKeeps(10000, 1, SYNCED);
    assert h.s.entities[2] == Obstacle(10000);
    assert Replicated(h.s, 2) && 10000 in NonPlayerIds(h.s);
    assert CopyOk(h, "a");
  }

  lemma EarlyDeath()
    ensures var h := Run(Start(10000, 1), EARLY_DEATH);
      && h.s == Kill(Insert(Started(10000, 1), "a"), 2)
      && "a" in h.synced && "a" in h.lost && 10000 in h.lost["a"]
  {
    SyncedState();
    SyncedHolds();
    RunOne(Start(10000, 1), SYNCED, Die(2));
  }

  lemma WithoutTwo(s: set<nat>)
    requires forall e: nat :: e in s <==> e < 5 && e != 2
    ensures Enumerates([0, 1, 3, 4], s)
  {
    var order: seq<nat> := [0, 1, 3, 4];
    assert order[0] == 0 && order[1] == 1 && order[2] == 3 && order[3] == 4;
  }

  /** The state before the next tick. */
  lemma EarlyDeathState()
    ensures var s := Run(Start(10000, 1), EARLY_DEATH).s;
      && Enumerates([0, 1, 3, 4], s.valid) && Enumerates([], s.lastKnown)
      && s.nextPlayerId == 2 && s.nextNetworkId == FIRST_DYNAMIC_ID
  {
    EarlyDeath();
    StartedEntities(10000, 1);
    WithoutTwo(Run(Start(10000, 1), EARLY_DEATH).s.valid);
  }

  lemma NextTickInRange(s: State, order: seq<nat>, lastOrder: seq<nat>)
    requires s.nextPlayerId == 2 && s.nextNetworkId == FIRST_DYNAMIC_ID && |order| == 4
    ensures InRange(s) && InRange(Update(s, order, lastOrder).0) && !Issued(Update(s, order, lastOrder).0, 10000)
  {
    PendingIsShort(s, order);
    UpdateFrame(s, order, lastOrder);
  }

  /** The only obstacle dies between a client's snapshot and the first tick: after the tick the
      client still holds its id, though no live entity has it. */
  lemma EarlyDeathIsLost()
    ensures var h := Run(Start(10000, 1), EARLY_DEATH + [Tick([0, 1, 3, 4], [])]);
      "a" in h.sent && 10000 in Copy(h, "a") && 10000 !in NonPlayerIds(h.s)
  {
    var start, order: seq<nat> := Start(10000, 1), [0, 1, 3, 4];
    var h := Run(start, EARLY_DEATH);
    EarlyDeath();
    EarlyDeathState();
    NextTickInRange(h.s, order, []);
    RunOne(start, EARLY_DEATH, Tick(order, []));
    RunKeeps(10000, 1, EARLY_DEATH);
    TickIs(h, order, []);
    TickIsExact(h, order, [], "a");
    assert 10000 in Astray(Apply(h, Tick(order, [])), "a");
  }

  lemma {:induction false} PendingIsShort(s: State, order: seq<nat>)
    ensures |Pending(s, order)| <= |order|
    decreases |order|
  {
    if order != [] {
      PendingIsShort(s, order[..|order| - 1]);
    }
  }
}
