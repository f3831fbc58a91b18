/** A session under any interleaving of joins, leaves, game systems and ticks: the join cap, the
    discipline of network ids, and what each client's copy of the entity set holds. */
module Replication {
  import opened Common
  import opened GameSession

  /** Where the network thread stands in a join. */
  datatype Join = NoJoin | Checked(addr: Addr) | Inserted(addr: Addr)

  /** `sent` is what each present client was sent since it was inserted; `synced` are those that
      have had their snapshot; `updated` tells whether a broadcast with clients has happened.
      `lost` are the ids a client was told of whose entity died before that first broadcast. */
  datatype History = History(s: State, join: Join, sent: map<Addr, seq<Message>>, synced: set<Addr>,
                             updated: bool, lost: map<Addr, set<nat>>)

  datatype Step =
    | Create(components: Entity)
    | Die(entity: nat)
    | BeginJoin(addr: Addr)
    | InsertClient
    | SendSnapshot(order: seq<nat>)
    | Erase(addr: Addr)
    | Tick(order: seq<nat>, lastOrder: seq<nat>)

  /** What one message makes of a set of ids. */
  function Effect(ids: set<nat>, m: Message): set<nat> {
    if m.Spawn? then ids + {m.id} else if m.Destroy? then ids - {m.id} else ids
  }

  /** What the messages make of it. */
  function Replay(ids: set<nat>, messages: seq<Message>): set<nat>
    decreases |messages|
  {
    if messages == [] then ids
    else Effect(Replay(ids, messages[..|messages| - 1]), messages[|messages| - 1])
  }

  /** A client's copy of the id set. */
  function Copy(h: History, a: Addr): set<nat>
    requires a in h.sent
  {
    Replay({}, h.sent[a])
  }

  /** Systems create entities without network id and never players; a notice has no position. */
  predicate Creatable(c: Entity) {
    c.netId.None? && !c.player && (c.stage.Some? ==> !c.hasPosition)
  }

  function Lose(h: History, e: nat): map<Addr, set<nat>> {
    if h.updated || !Replicated(h.s, e) then h.lost
    else
      var id := h.s.entities[e].netId.value;
      map a | a in h.lost :: if a in h.sent && id in Copy(h, a) then h.lost[a] + {id} else h.lost[a]
  }

  function Tell(h: History, messages: seq<Message>): map<Addr, seq<Message>> {
    map a | a in h.sent ::
      if a in h.s.clients && h.s.clients[a].connected then h.sent[a] + messages else h.sent[a]
  }

  function Apply(h: History, step: Step): History {
    match step
    case Create(c) => if Creatable(c) then h.(s := AddEntity(h.s, c)) else h
    case Die(e) => h.(s := Kill(h.s, e), lost := Lose(h, e))
    case BeginJoin(a) =>
      if h.join == NoJoin && CheckJoin(h.s, a) == Proceed then h.(join := Checked(a)) else h
    case InsertClient =>
      if !h.join.Checked? then h
      else
        var a := h.join.addr;
        h.(s := Insert(h.s, a), join := Inserted(a), sent := h.sent[a := []], lost := h.lost[a := {}])
    case SendSnapshot(order) =>
      if !h.join.Inserted? || !Enumerates(order, h.s.valid) then h
      else
        var a := h.join.addr;
        if a in h.sent then
          h.(join := NoJoin, sent := h.sent[a := h.sent[a] + Snapshot(h.s, order)], synced := h.synced + {a})
        else h.(join := NoJoin)
    case Erase(a) =>
      h.(s := h.s.(clients := h.s.clients - {a}), sent := h.sent - {a}, lost := h.lost - {a}, synced := h.synced - {a})
    case Tick(order, lastOrder) =>
      if !Enumerates(order, h.s.valid) || !Enumerates(lastOrder, h.s.lastKnown) then h
      else
        var (s', messages) := Update(h.s, order, lastOrder);
        h.(s := s', sent := Tell(h, messages), updated := h.updated || h.s.clients != map[])
  }

  function Start(base: nat, obstacles: nat): History {
    History(Started(base, obstacles), NoJoin, map[], {}, false, map[])
  }

  function Run(start: History, steps: seq<Step>): History
    decreases |steps|
  {
    if steps == [] then start else Apply(Run(start, steps[..|steps| - 1]), steps[|steps| - 1])
  }

  // The invariant.

  /** The three counters are inside their ranges. */
  predicate InRange(s: State) {
    s.nextPlayerId <= FIRST_OBSTACLE_ID && s.nextNetworkId <= U32_LIMIT
  }

  predicate IdFits(s: State, c: Entity) {
    c.netId.Some? ==>
      && c.stage.None?
      && (if c.player then 1 <= c.netId.value < s.nextPlayerId
          else c.hasPosition && FIRST_OBSTACLE_ID <= c.netId.value)
  }

  /** The id has been given out by the dynamic counter. */
  predicate Issued(s: State, id: nat) {
    FIRST_DYNAMIC_ID <= id < s.nextNetworkId
  }

  predicate ShareId(s: State, e: nat, f: nat)
    requires e in s.entities && f in s.entities
  {
    e != f && s.entities[e].netId.Some? && s.entities[e].netId == s.entities[f].netId
  }

  /** No id was given to two entities, live or dead, unless the dynamic counter has passed it:
      the obstacles of a session may lie in the dynamic range. */
  ghost predicate IdsOk(s: State) {
    && Wf(s) && s.nextNetworkId >= FIRST_DYNAMIC_ID && s.nextPlayerId >= 1
    && (forall e :: e in s.entities ==> IdFits(s, s.entities[e]))
    && (forall e :: e in s.entities && s.entities[e].stage.Some? ==> !s.entities[e].hasPosition)
    && (forall e, f :: e in s.entities && f in s.entities && ShareId(s, e, f) ==> Issued(s, s.entities[e].netId.value))
  }

  /** Never more than four clients; player ids and entity ids of clients are distinct and already
      issued. */
  predicate ClientsDistinct(s: State) {
    && |s.clients| <= MAX_PLAYERS
    && (forall a :: a in s.clients ==>
          s.clients[a].connected && s.clients[a].player < s.nextPlayerId && s.clients[a].entity < s.next)
    && (forall a, b :: a in s.clients && b in s.clients && a != b ==>
          s.clients[a].player != s.clients[b].player && s.clients[a].entity != s.clients[b].entity)
  }

  /** A join that passed its check still finds room, and no entry, when it inserts. */
  predicate ClientsOk(h: History) {
    && ClientsDistinct(h.s)
    && (h.join.Checked? ==> |h.s.clients| < MAX_PLAYERS && h.join.addr !in h.s.clients)
    && h.sent.Keys == h.s.clients.Keys && h.lost.Keys == h.s.clients.Keys && h.synced <= h.s.clients.Keys
  }

  /** The id belongs to a dead entity that was replicated. */
  predicate DeadId(s: State, id: nat) {
    exists e :: e in s.entities && e !in s.valid && !s.entities[e].player && s.entities[e].netId == Some(id)
  }

  /** One client's copy, against the ids `lost` to it, the ids to replicate `np` and the ids last
      known `last`. */
  predicate CopySets(copy: set<nat>, lost: set<nat>, np: set<nat>, last: set<nat>, updated: bool, synced: bool) {
    && (forall id :: id in copy ==> id >= FIRST_OBSTACLE_ID)
    && (forall id :: id in copy ==> id in lost || id in (if updated then last else np))
    && (synced ==> np <= copy)
    && lost <= copy && lost !! last
  }

  predicate AllDead(s: State, ids: set<nat>) {
    forall id :: id in ids ==> DeadId(s, id)
  }

  /** The ids a client lost that have not been given out again since. */
  function Astray(h: History, a: Addr): set<nat>
    requires a in h.lost
  {
    set id | id in h.lost[a] && !Issued(h.s, id)
  }

  predicate CopyOk(h: History, a: Addr)
    requires a in h.sent && a in h.lost
  {
    && CopySets(Copy(h, a), Astray(h, a), NonPlayerIds(h.s), h.s.lastKnown, h.updated, a in h.synced)
    && AllDead(h.s, h.lost[a])
  }

  predicate CopiesOk(h: History) {
    && (if h.updated then NonPlayerIds(h.s) <= h.s.lastKnown
        else h.s.lastKnown == {} && h.s.nextNetworkId == FIRST_DYNAMIC_ID)
    && (forall a :: a in h.sent && a in h.lost ==> CopyOk(h, a))
  }

  ghost predicate Inv(h: History) {
    IdsOk(h.s) && ClientsOk(h) && CopiesOk(h)
  }

  // Replaying messages.

  lemma {:induction false} ReplayConcat(ids: set<nat>, a: seq<Message>, b: seq<Message>)
    ensures Replay(ids, a + b) == Replay(Replay(ids, a), b)
    decreases |b|
  {
    if b == [] {
      assert a + b == a;
    } else {
      assert (a + b)[..|a + b| - 1] == a + b[..|b| - 1];
      ReplayConcat(ids, a, b[..|b| - 1]);
    }
  }

  function Second(p: seq<(nat, nat)>): set<nat> {
    set i | 0 <= i < |p| :: p[i].1
  }

  lemma {:induction false} ReplaySpawns(ids: set<nat>, p: seq<(nat, nat)>)
    ensures Replay(ids, Spawns(p)) == ids + Second(p)
    decreases |p|
  {
    if p != [] {
      var front := p[..|p| - 1];
      assert Spawns(p)[..|p| - 1] == Spawns(front);
      ReplaySpawns(ids, front);
      assert Second(p) == Second(front) + {p[|p| - 1].1};
    } else {
      assert Second(p) == {};
    }
  }

  function Gone(order: seq<nat>, current: set<nat>): set<nat> {
    set i | 0 <= i < |order| && order[i] !in current :: order[i]
  }

  lemma {:induction false} ReplayDeaths(ids: set<nat>, order: seq<nat>, current: set<nat>)
    ensures Replay(ids, Deaths(order, current)) == ids - Gone(order, current)
    decreases |order|
  {
    if order == [] {
      assert Gone(order, current) == {};
    } else {
      var front, last := order[..|order| - 1], order[|order| - 1];
      ReplayDeaths(ids, front, current);
      assert Gone(order, current) == Gone(front, current) + if last in current then {} else {last};
      if last !in current {
        ReplayConcat(ids, Deaths(front, current), [Destroy(last)]);
        ReplayOne(ids - Gone(front, current), Destroy(last));
      } else {
        assert Deaths(order, current) == Deaths(front, current);
      }
    }
  }

  lemma {:induction false} ReplayNotices(ids: set<nat>, s: State, order: seq<nat>)
    ensures Replay(ids, Notices(s, order)) == ids
    decreases |order|
  {
    if order != [] {
      var front, last := order[..|order| - 1], order[|order| - 1];
      ReplayNotices(ids, s, front);
      if UnsentNotice(s, last) {
        ReplayConcat(ids, Notices(s, front), [Cleared(last)]);
        ReplayOne(ids, Cleared(last));
      } else {
        assert Notices(s, order) == Notices(s, front);
      }
    }
  }

  lemma GoneFromLast(order: seq<nat>, last: set<nat>, current: set<nat>)
    requires Enumerates(order, last)
    ensures Gone(order, current) == last - current
  {
    forall id | id in last - current
      ensures id in Gone(order, current)
    {
      var i :| 0 <= i < |order| && order[i] == id;
    }
  }

  function Told(s: State, order: seq<nat>): set<nat> {
    set i | 0 <= i < |order| && Replicated(s, order[i]) && s.entities[order[i]].hasPosition ::
      s.entities[order[i]].netId.value
  }

  lemma ReplayOne(ids: set<nat>, m: Message)
    ensures Replay(ids, [m]) == Effect(ids, m)
  {
    assert [m][..0] == [];
    assert Replay(ids, [m][..0]) == ids;
  }

  lemma ToldStep(s: State, order: seq<nat>)
    requires order != []
    ensures var front, e := order[..|order| - 1], order[|order| - 1];
      Told(s, order) == Told(s, front) +
        if Replicated(s, e) && s.entities[e].hasPosition then {s.entities[e].netId.value} else {}
  {
  }

  lemma {:induction false} ReplaySnapshot(ids: set<nat>, s: State, order: seq<nat>)
    ensures Replay(ids, Snapshot(s, order)) == ids + Told(s, order)
    decreases |order|
  {
    if order == [] {
      assert Told(s, order) == {};
    } else {
      var front, e := order[..|order| - 1], order[|order| - 1];
      ReplaySnapshot(ids, s, front);
      ToldStep(s, order);
      if Replicated(s, e) && s.entities[e].hasPosition {
        var m := Spawn(s.entities[e].netId.value);
        ReplayConcat(ids, Snapshot(s, front), [m]);
        ReplayOne(ids + Told(s, front), m);
      } else {
        assert Snapshot(s, order) == Snapshot(s, front);
      }
    }
  }

  /** The snapshot tells every id a copy should hold. */
  lemma SnapshotIsComplete(s: State, order: seq<nat>)
    requires IdsOk(s) && Enumerates(order, s.valid)
    ensures Told(s, order) == NonPlayerIds(s)
  {
    forall id | id in NonPlayerIds(s)
      ensures id in Told(s, order)
    {
      var e :| Replicated(s, e) && s.entities[e].netId.value == id;
      assert Replicated(s, e);
      assert e in order;
      var i :| 0 <= i < |order| && order[i] == e;
      assert IdFits(s, s.entities[e]);
    }
  }

  // Announcing the entities of a tick.

  /** An announced entity was walked and lacked an id; the ids count up. */
  lemma {:induction false} PendingEntry(s: State, order: seq<nat>, i: nat)
    requires i < |Pending(s, order)|
    ensures var (e, id) := Pending(s, order)[i];
      e in order && Unannounced(s, e) && id == (s.nextNetworkId + i) % U32_LIMIT
    decreases |order|
  {
    var front, last := order[..|order| - 1], order[|order| - 1];
    if i < |Pending(s, front)| {
      PendingEntry(s, front, i);
      assert Pending(s, order)[i].0 in front;
    } else {
      assert Unannounced(s, last);
    }
  }

  lemma {:induction false} PendingFirstsDiffer(s: State, order: seq<nat>)
    requires forall i, j :: 0 <= i < j < |order| ==> order[i] != order[j]
    ensures FirstsDiffer(Pending(s, order))
    decreases |order|
  {
    if order != [] {
      var front, last := order[..|order| - 1], order[|order| - 1];
      PendingFirstsDiffer(s, front);
      assert last !in front;
      forall i | 0 <= i < |Pending(s, front)|
        ensures Pending(s, front)[i].0 != last
      {
        PendingEntry(s, front, i);
      }
    }
  }

  lemma {:induction false} PendingCovers(s: State, order: seq<nat>, e: nat)
    requires e in order && Unannounced(s, e)
    ensures HasPending(Pending(s, order), e)
    decreases |order|
  {
    var front, last := order[..|order| - 1], order[|order| - 1];
    var p, q := Pending(s, front), Pending(s, order);
    if e == last {
      assert q[|p|].0 == e;
    } else {
      PendingCovers(s, front, e);
      var k :| 0 <= k < |p| && p[k].0 == e;
      assert q[k].0 == e;
    }
  }

  predicate FirstsDiffer(p: seq<(nat, nat)>) {
    forall i, j :: 0 <= i < j < |p| ==> p[i].0 != p[j].0
  }

  predicate HasPending(p: seq<(nat, nat)>, e: nat) {
    exists i :: 0 <= i < |p| && p[i].0 == e
  }

  lemma {:induction false} WithIdsOk(entities: map<nat, Entity>, p: seq<(nat, nat)>)
    requires FirstsDiffer(p) && forall i :: 0 <= i < |p| ==> p[i].0 in entities
    ensures var m := WithIds(entities, p);
      && m.Keys == entities.Keys
      && (forall i :: 0 <= i < |p| ==> m[p[i].0] == entities[p[i].0].(netId := Some(p[i].1)))
      && (forall e :: e in entities && !HasPending(p, e) ==> m[e] == entities[e])
    decreases |p|
  {
    if p != [] {
      var front, last := p[..|p| - 1], p[|p| - 1];
      WithIdsOk(entities, front);
      var m0, m := WithIds(entities, front), WithIds(entities, p);
      assert !HasPending(front, last.0);
      forall i | 0 <= i < |p|
        ensures m[p[i].0] == entities[p[i].0].(netId := Some(p[i].1))
      {
        if i < |front| {
          assert front[i] == p[i];
        }
      }
      forall e | HasPending(front, e)
        ensures HasPending(p, e)
      {
        var i :| 0 <= i < |front| && front[i].0 == e;
        assert p[i].0 == e;
      }
      assert HasPending(p, last.0);
    }
  }

  /** Each entity after the announcement: with its new id, or as it was. */
  lemma AnnouncedEntities(s: State, order: seq<nat>)
    requires Wf(s) && Enumerates(order, s.valid) && s.nextNetworkId + |Pending(s, order)| <= U32_LIMIT
    ensures var p, s1 := Pending(s, order), Announced(s, order);
      && s1.entities.Keys == s.entities.Keys && s1.valid == s.valid
      && (forall i :: 0 <= i < |p| ==>
            && p[i].0 in s.valid && Unannounced(s, p[i].0) && p[i].1 == s.nextNetworkId + i
            && s1.entities[p[i].0] == s.entities[p[i].0].(netId := Some(p[i].1)))
      && (forall e :: e in s.entities && !HasPending(p, e) ==> s1.entities[e] == s.entities[e])
  {
    PendingIsLive(s, order);
    PendingFirstsDiffer(s, order);
    WithIdsOk(s.entities, Pending(s, order));
  }

  lemma PendingIsLive(s: State, order: seq<nat>)
    requires Wf(s) && Enumerates(order, s.valid) && s.nextNetworkId + |Pending(s, order)| <= U32_LIMIT
    ensures var p := Pending(s, order); forall i :: 0 <= i < |p| ==>
      && p[i].0 in s.valid && Unannounced(s, p[i].0) && p[i].1 == s.nextNetworkId + i
  {
    var p := Pending(s, order);
    forall i | 0 <= i < |p|
      ensures p[i].0 in s.valid && Unannounced(s, p[i].0) && p[i].1 == s.nextNetworkId + i
    {
      PendingEntry(s, order, i);
      assert p[i].0 in order;
    }
  }

  lemma AnnouncedIdsOk(s: State, order: seq<nat>)
    requires IdsOk(s) && Enumerates(order, s.valid) && InRange(Announced(s, order))
    ensures IdsOk(Announced(s, order))
  {
    var p, s1 := Pending(s, order), Announced(s, order);
    AnnouncedEntities(s, order);
    forall e | e in s1.entities
      ensures IdFits(s1, s1.entities[e])
      ensures s1.entities[e].stage == s.entities[e].stage && s1.entities[e].hasPosition == s.entities[e].hasPosition
    {
      assert IdFits(s, s.entities[e]);
      if HasPending(p, e) {
        var i :| 0 <= i < |p| && p[i].0 == e;
      }
    }
    forall e, f | e in s1.entities && f in s1.entities && ShareId(s1, e, f)
      ensures Issued(s1, s1.entities[e].netId.value)
    {
      NewIdsDiffer(s, order, e, f);
    }
  }

  predicate GivenAt(s: State, order: seq<nat>, e: nat, i: int) {
    && 0 <= i < |Pending(s, order)| && Pending(s, order)[i].0 == e
    && e in Announced(s, order).entities && Announced(s, order).entities[e].netId == Some(s.nextNetworkId + i)
  }

  lemma NewId(s: State, order: seq<nat>, e: nat)
    requires IdsOk(s) && Enumerates(order, s.valid) && InRange(Announced(s, order)) && e in s.entities
    ensures var m := Announced(s, order).entities;
      e in m && (m[e].netId == s.entities[e].netId || exists i :: GivenAt(s, order, e, i))
  {
    AnnouncedEntities(s, order);
    if HasPending(Pending(s, order), e) {
      var i :| 0 <= i < |Pending(s, order)| && Pending(s, order)[i].0 == e;
      assert GivenAt(s, order, e, i);
    }
  }

  lemma NewIdsDiffer(s: State, order: seq<nat>, e: nat, f: nat)
    requires IdsOk(s) && Enumerates(order, s.valid) && InRange(Announced(s, order))
    requires e in s.entities && f in s.entities && e != f
    ensures var s1 := Announced(s, order);
      && e in s1.entities && f in s1.entities
      && (ShareId(s1, e, f) ==> Issued(s1, s1.entities[e].netId.value))
  {
    NewId(s, order, e);
    NewId(s, order, f);
    assert ShareId(s, e, f) ==> Issued(s, s.entities[e].netId.value);
  }

  lemma AnnouncedIds(s: State, order: seq<nat>)
    requires IdsOk(s) && Enumerates(order, s.valid) && InRange(Announced(s, order))
    ensures NonPlayerIds(Announced(s, order)) == NonPlayerIds(s) + Second(Pending(s, order))
  {
    var p, s1 := Pending(s, order), Announced(s, order);
    AnnouncedEntities(s, order);
    forall id | id in NonPlayerIds(s1)
      ensures id in NonPlayerIds(s) + Second(p)
    {
      var e :| Replicated(s1, e) && s1.entities[e].netId.value == id;
      assert Replicated(s1, e);
      if HasPending(p, e) {
        var i :| 0 <= i < |p| && p[i].0 == e;
        assert p[i].1 in Second(p);
      } else {
        assert Replicated(s, e);
      }
    }
    forall id | id in NonPlayerIds(s)
      ensures id in NonPlayerIds(s1)
    {
      var e :| Replicated(s, e) && s.entities[e].netId.value == id;
      assert Replicated(s, e);
      assert !HasPending(p, e);
      assert Replicated(s1, e);
    }
    forall id | id in Second(p)
      ensures id in NonPlayerIds(s1)
    {
      var i :| 0 <= i < |p| && p[i].1 == id;
      assert Replicated(s1, p[i].0);
    }
  }

  /** Sending the notices touches nothing networked. */
  lemma NoticesKeep(s: State)
    requires IdsOk(s)
    ensures IdsOk(NoticesSent(s))
    ensures NetIds(NoticesSent(s)) == NetIds(s) && NonPlayerIds(NoticesSent(s)) == NonPlayerIds(s)
    ensures forall id :: DeadId(s, id) ==> DeadId(NoticesSent(s), id)
  {
    var t := NoticesSent(s);
    assert t.entities.Keys == s.entities.Keys;
    forall e | e in s.entities
      ensures IdFits(t, t.entities[e]) && t.entities[e].netId == s.entities[e].netId
      ensures s.entities[e].netId.Some? ==> (e in t.valid <==> e in s.valid) || s.entities[e].player
      ensures t.entities[e].player == s.entities[e].player
    {
      assert IdFits(s, s.entities[e]);
    }
  }

  lemma IdsFrame(s: State, t: State)
    requires IdsOk(s) && t.next == s.next && t.valid == s.valid && t.entities == s.entities
    requires t.nextNetworkId == s.nextNetworkId && t.nextPlayerId == s.nextPlayerId
    ensures IdsOk(t)
  {
    forall e | e in t.entities
      ensures IdFits(t, t.entities[e])
    {
      assert IdFits(s, s.entities[e]);
    }
  }

  // One tick.

  lemma SameEntities(s: State, t: State)
    requires s.valid == t.valid && s.entities == t.entities
    ensures NetIds(s) == NetIds(t) && NonPlayerIds(s) == NonPlayerIds(t)
    ensures forall id :: DeadId(s, id) <==> DeadId(t, id)
  {
    assert forall e :: Replicated(s, e) <==> Replicated(t, e);
  }

  /** Among the ids of live entities, those from the obstacle range upwards are not players'. */
  lemma LiveIds(s: State)
    requires IdsOk(s) && s.nextPlayerId <= FIRST_OBSTACLE_ID
    ensures NonPlayerIds(s) <= NetIds(s)
    ensures forall id :: id in NonPlayerIds(s) ==> id >= FIRST_OBSTACLE_ID
    ensures forall id :: id in NetIds(s) && id >= FIRST_OBSTACLE_ID ==> id in NonPlayerIds(s)
  {
    forall id | id in NonPlayerIds(s)
      ensures id >= FIRST_OBSTACLE_ID && id in NetIds(s)
    {
      var e :| Replicated(s, e) && s.entities[e].netId.value == id;
      assert Replicated(s, e);
      assert IdFits(s, s.entities[e]);
    }
    forall id | id in NetIds(s) && id >= FIRST_OBSTACLE_ID
      ensures id in NonPlayerIds(s)
    {
      var e :| e in s.valid && e in s.entities && s.entities[e].netId.Some? && s.entities[e].netId.value == id;
      assert IdFits(s, s.entities[e]);
      assert Replicated(s, e);
    }
  }

  /** A dead entity's id is no live entity's, unless it was given out again. */
  lemma DeadIsNotLive(s: State, id: nat)
    requires IdsOk(s) && DeadId(s, id) && !Issued(s, id)
    ensures id !in NetIds(s)
  {
    var e :| e in s.entities && e !in s.valid && !s.entities[e].player && s.entities[e].netId == Some(id);
    forall f | f in s.valid && f in s.entities && s.entities[f].netId.Some?
      ensures s.entities[f].netId.value != id
    {
      assert !ShareId(s, e, f) && e != f;
    }
  }

  /** What the messages of a tick make of any set of ids. */
  lemma TickMessages(s: State, order: seq<nat>, lastOrder: seq<nat>)
    requires s.clients != map[] && Enumerates(lastOrder, s.lastKnown)
    ensures var messages, added := Update(s, order, lastOrder).1, Second(Pending(s, order));
      forall ids :: Replay(ids, messages) == (ids + added) - (s.lastKnown - NetIds(Announced(s, order)))
  {
    var p, current := Pending(s, order), NetIds(Announced(s, order));
    GoneFromLast(lastOrder, s.lastKnown, current);
    forall ids
      ensures Replay(ids, Update(s, order, lastOrder).1) == (ids + Second(p)) - (s.lastKnown - current)
    {
      ReplayConcat(ids, Spawns(p) + Deaths(lastOrder, current), Notices(Announced(s, order), order));
      ReplayConcat(ids, Spawns(p), Deaths(lastOrder, current));
      ReplayNotices((ids + Second(p)) - Gone(lastOrder, current), Announced(s, order), order);
      ReplaySpawns(ids, p);
      ReplayDeaths(ids + Second(p), lastOrder, current);
    }
  }

  /** The state and the copies after a broadcast to clients. */
  lemma TickState(s: State, order: seq<nat>, lastOrder: seq<nat>)
    requires IdsOk(s) && s.clients != map[]
    requires Enumerates(order, s.valid) && Enumerates(lastOrder, s.lastKnown)
    requires InRange(Update(s, order, lastOrder).0)
    ensures var (t, messages) := Update(s, order, lastOrder); var added := Second(Pending(s, order));
      && IdsOk(t) && t.lastKnown == NetIds(t) && t.clients == s.clients
      && t.next == s.next && t.nextPlayerId == s.nextPlayerId
      && NonPlayerIds(t) == NonPlayerIds(s) + added
      && (forall ids :: Replay(ids, messages) == (ids + added) - (s.lastKnown - NetIds(t)))
      && (forall id :: DeadId(s, id) ==> DeadId(t, id))
  {
    var s1 := Announced(s, order);
    var s2 := NoticesSent(s1);
    var t := s2.(lastKnown := NetIds(s2));
    AnnouncedIdsOk(s, order);
    AnnouncedIds(s, order);
    NoticesKeep(s1);
    IdsFrame(s2, t);
    SameEntities(s2, t);
    TickMessages(s, order, lastOrder);
    forall id | DeadId(s, id)
      ensures DeadId(t, id)
    {
      DeadStaysDead(s, order, id);
    }
  }

  lemma DeadStaysDead(s: State, order: seq<nat>, id: nat)
    requires IdsOk(s) && Enumerates(order, s.valid) && InRange(Announced(s, order)) && DeadId(s, id)
    ensures DeadId(Announced(s, order), id)
  {
    var e :| e in s.entities && e !in s.valid && !s.entities[e].player && s.entities[e].netId == Some(id);
    AnnouncedEntities(s, order);
    assert !HasPending(Pending(s, order), e);
  }

  /** The arithmetic of a tick, on sets of ids. `known` is what the copy may hold beside the
      lost ids; of these, `lost'` are not among those added. */
  lemma CopyArithmetic(copy: set<nat>, added: set<nat>, np: set<nat>, last: set<nat>, cur: set<nat>, lost: set<nat>,
                       lost': set<nat>, known: set<nat>)
    requires np + added <= cur && (forall id :: id in cur && id >= FIRST_OBSTACLE_ID ==> id in np + added)
    requires forall id :: id in copy ==> id >= FIRST_OBSTACLE_ID && (id in lost || id in known)
    requires forall id :: id in added ==> id >= FIRST_OBSTACLE_ID
    requires known == last || (last == {} && known == np)
    requires lost <= copy && lost !! last && lost' <= lost <= lost' + added && lost' !! cur
    ensures var copy' := (copy + added) - (last - cur);
      && lost' <= copy' <= np + added + lost'
      && (forall id :: id in copy' ==> id >= FIRST_OBSTACLE_ID)
      && (np <= copy ==> np + added <= copy')
  {
  }

  /** What is no longer astray after a tick was just announced. */
  lemma TickAstray(s: State, order: seq<nat>, lost: set<nat>)
    requires IdsOk(s) && Enumerates(order, s.valid) && InRange(Announced(s, order))
    ensures var s1 := Announced(s, order); var added := Second(Pending(s, order));
      forall id :: id in lost && !Issued(s, id) && Issued(s1, id) ==> id in added
  {
    var p := Pending(s, order);
    PendingIsLive(s, order);
    forall id | id in lost && !Issued(s, id) && Issued(Announced(s, order), id)
      ensures id in Second(p)
    {
      assert p[id - s.nextNetworkId].1 == id;
    }
  }

  /** What a tick's messages make of a copy. */
  lemma TickFold(h: History, order: seq<nat>, lastOrder: seq<nat>, a: Addr)
    requires IdsOk(h.s) && a in h.sent && a in h.s.clients && h.s.clients[a].connected
    requires Enumerates(order, h.s.valid) && Enumerates(lastOrder, h.s.lastKnown)
    requires InRange(Update(h.s, order, lastOrder).0)
    ensures var h', t := Apply(h, Tick(order, lastOrder)), Update(h.s, order, lastOrder).0;
      && a in h'.sent && h'.s == t && h'.lost == h.lost && h'.synced == h.synced && h'.updated
      && Copy(h', a) == (Copy(h, a) + Second(Pending(h.s, order))) - (h.s.lastKnown - NetIds(t))
  {
    TickState(h.s, order, lastOrder);
    ReplayConcat({}, h.sent[a], Update(h.s, order, lastOrder).1);
  }

  lemma TickCopySets(h: History, order: seq<nat>, lastOrder: seq<nat>, a: Addr)
    requires Inv(h) && a in h.sent && h.s.nextPlayerId <= FIRST_OBSTACLE_ID && h.s.clients != map[]
    requires Enumerates(order, h.s.valid) && Enumerates(lastOrder, h.s.lastKnown)
    requires InRange(Update(h.s, order, lastOrder).0)
    ensures var h', t := Apply(h, Tick(order, lastOrder)), Update(h.s, order, lastOrder).0;
      && a in h'.sent && h'.s == t && h'.lost == h.lost && h'.synced == h.synced && h'.updated
      && a in h'.lost && Astray(h', a) <= Copy(h', a) <= NonPlayerIds(t) + Astray(h', a)
      && (forall id :: id in Copy(h', a) ==> id >= FIRST_OBSTACLE_ID)
      && (a in h.synced ==> NonPlayerIds(t) <= Copy(h', a))
      && Astray(h', a) !! NetIds(t)
  {
    var h', t := Apply(h, Tick(order, lastOrder)), Update(h.s, order, lastOrder).0;
    TickState(h.s, order, lastOrder);
    TickFold(h, order, lastOrder, a);
    LiveIds(t);
    assert CopyOk(h, a);
    TickAstray(h.s, order, h.lost[a]);
    forall id | id in Astray(h', a)
      ensures id !in NetIds(t)
    {
      DeadIsNotLive(t, id);
    }
    CopyArithmetic(Copy(h, a), Second(Pending(h.s, order)), NonPlayerIds(h.s), h.s.lastKnown, NetIds(t), Astray(h, a),
                   Astray(h', a), if h.updated then h.s.lastKnown else NonPlayerIds(h.s));
  }

  /** After a broadcast, a synced client's copy is exactly the ids of live entities but players,
      together with the ids it lost and that were not given out again; the two parts are disjoint. */
  lemma TickCopy(h: History, order: seq<nat>, lastOrder: seq<nat>, a: Addr)
    requires Inv(h) && a in h.sent && h.s.nextPlayerId <= FIRST_OBSTACLE_ID && h.s.clients != map[]
    requires Enumerates(order, h.s.valid) && Enumerates(lastOrder, h.s.lastKnown)
    requires InRange(Update(h.s, order, lastOrder).0)
    ensures var h' := Apply(h, Tick(order, lastOrder));
      && a in h'.sent && a in h'.lost && CopyOk(h', a)
      && h'.lost == h.lost
      && (a in h'.synced ==> Copy(h', a) == NonPlayerIds(h'.s) + Astray(h', a) && NonPlayerIds(h'.s) !! Astray(h', a))
  {
    TickCopySets(h, order, lastOrder, a);
    TickState(h.s, order, lastOrder);
    LiveIds(Update(h.s, order, lastOrder).0);
    assert CopyOk(h, a);
  }

  lemma ClientsFrame(h: History, h': History)
    requires ClientsOk(h) && h'.s.clients == h.s.clients && h'.join == h.join
    requires h'.s.next >= h.s.next && h'.s.nextPlayerId == h.s.nextPlayerId
    requires h'.sent.Keys == h.sent.Keys && h'.lost.Keys == h.lost.Keys && h'.synced == h.synced
    ensures ClientsOk(h')
  {
  }

  lemma TickFrame(h: History, order: seq<nat>, lastOrder: seq<nat>)
    requires IdsOk(h.s) && h.s.clients != map[]
    requires Enumerates(order, h.s.valid) && Enumerates(lastOrder, h.s.lastKnown)
    requires InRange(Update(h.s, order, lastOrder).0)
    ensures var h' := Apply(h, Tick(order, lastOrder));
      && IdsOk(h'.s) && h'.updated && NonPlayerIds(h'.s) <= h'.s.lastKnown
      && h'.s.clients == h.s.clients && h'.join == h.join && h'.s.next == h.s.next
      && h'.s.nextPlayerId == h.s.nextPlayerId
      && h'.sent.Keys == h.sent.Keys && h'.lost.Keys == h.lost.Keys && h'.synced == h.synced
  {
    TickState(h.s, order, lastOrder);
    LiveIds(Update(h.s, order, lastOrder).0);
  }

  lemma TickKeeps(h: History, order: seq<nat>, lastOrder: seq<nat>)
    requires Inv(h) && h.s.clients != map[] && h.s.nextPlayerId <= FIRST_OBSTACLE_ID
    requires Enumerates(order, h.s.valid) && Enumerates(lastOrder, h.s.lastKnown)
    requires InRange(Update(h.s, order, lastOrder).0)
    ensures Inv(Apply(h, Tick(order, lastOrder)))
  {
    var h' := Apply(h, Tick(order, lastOrder));
    TickFrame(h, order, lastOrder);
    ClientsFrame(h, h');
    forall a | a in h'.sent && a in h'.lost
      ensures CopyOk(h', a)
    {
      TickCopy(h, order, lastOrder, a);
    }
  }

  // The other steps.

  /** `t` is `s` with one more entity: a player with the next id, or anything without one. */
  ghost predicate Added(s: State, t: State, c: Entity) {
    && t == AddEntity(s, c).(clients := t.clients, nextPlayerId := t.nextPlayerId)
    && (c.stage.Some? ==> !c.hasPosition)
    && (if c.player then c == Player(s.nextPlayerId) && t.nextPlayerId == s.nextPlayerId + 1
        else c.netId.None? && t.nextPlayerId == s.nextPlayerId)
    && t.nextPlayerId <= FIRST_OBSTACLE_ID
  }

  lemma AddedIds(s: State, t: State, c: Entity)
    requires IdsOk(s) && Added(s, t, c)
    ensures IdsOk(t)
  {
    forall e | e in t.entities
      ensures IdFits(t, t.entities[e])
      ensures e != s.next && c.netId.Some? ==> t.entities[e].netId != c.netId
    {
      if e != s.next {
        assert IdFits(s, s.entities[e]);
      }
    }
  }

  lemma AddedEntity(s: State, t: State, c: Entity)
    requires IdsOk(s) && Added(s, t, c)
    ensures IdsOk(t) && NonPlayerIds(t) == NonPlayerIds(s)
    ensures forall id :: DeadId(s, id) ==> DeadId(t, id)
  {
    AddedIds(s, t, c);
    assert forall e :: Replicated(t, e) <==> Replicated(s, e);
    forall id | id in NonPlayerIds(s)
      ensures id in NonPlayerIds(t)
    {
      var e :| Replicated(s, e) && s.entities[e].netId.value == id;
      assert Replicated(t, e);
    }
    forall id | id in NonPlayerIds(t)
      ensures id in NonPlayerIds(s)
    {
      var e :| Replicated(t, e) && t.entities[e].netId.value == id;
      assert Replicated(s, e);
    }
  }

  /** A copy does not depend on anything but these parts of the history. */
  lemma CopyFrame(h: History, h': History, a: Addr)
    requires a in h.sent && a in h.lost && CopyOk(h, a)
    requires a in h'.sent && a in h'.lost && h'.sent[a] == h.sent[a] && h'.lost[a] == h.lost[a]
    requires (a in h'.synced <==> a in h.synced) && h'.updated == h.updated
    requires NonPlayerIds(h'.s) == NonPlayerIds(h.s) && h'.s.lastKnown == h.s.lastKnown
    requires h'.s.nextNetworkId == h.s.nextNetworkId
    requires forall id :: DeadId(h.s, id) ==> DeadId(h'.s, id)
    ensures CopyOk(h', a)
  {
  }

  lemma CopiesFrame(h: History, h': History)
    requires CopiesOk(h) && h'.sent == h.sent && h'.lost == h.lost && h'.synced == h.synced && h'.updated == h.updated
    requires NonPlayerIds(h'.s) == NonPlayerIds(h.s) && h'.s.lastKnown == h.s.lastKnown
    requires h'.s.nextNetworkId == h.s.nextNetworkId
    requires forall id :: DeadId(h.s, id) ==> DeadId(h'.s, id)
    ensures CopiesOk(h')
  {
    forall a | a in h'.sent && a in h'.lost
      ensures CopyOk(h', a)
    {
      CopyFrame(h, h', a);
    }
  }

  lemma CreateKeeps(h: History, c: Entity)
    requires Inv(h) && Creatable(c) && h.s.nextPlayerId <= FIRST_OBSTACLE_ID
    ensures Inv(h.(s := AddEntity(h.s, c)))
  {
    var h' := h.(s := AddEntity(h.s, c));
    AddedEntity(h.s, h'.s, c);
    ClientsFrame(h, h');
    CopiesFrame(h, h');
  }

  lemma BeginKeeps(h: History, a: Addr)
    requires Inv(h) && h.join == NoJoin && CheckJoin(h.s, a) == Proceed
    ensures Inv(h.(join := Checked(a)))
  {
    assert h.s.clients.Keys == Connected(h.s);
    CopiesFrame(h, h.(join := Checked(a)));
  }

  lemma InsertKeeps(h: History)
    requires Inv(h) && h.join.Checked? && Insert(h.s, h.join.addr).nextPlayerId <= FIRST_OBSTACLE_ID
    ensures Inv(Apply(h, InsertClient))
  {
    AddedEntity(h.s, Apply(h, InsertClient).s, Player(h.s.nextPlayerId));
    forall b | b in Apply(h, InsertClient).sent
      ensures b in Apply(h, InsertClient).lost && CopyOk(Apply(h, InsertClient), b)
    {
      InsertCopy(h, b);
    }
    InsertClients(h);
  }

  lemma InsertedClients(s: State, a: Addr)
    requires ClientsDistinct(s) && a !in s.clients && |s.clients| < MAX_PLAYERS
    ensures ClientsDistinct(Insert(s, a)) && Insert(s, a).clients.Keys == s.clients.Keys + {a}
  {
    var t := Insert(s, a);
    assert |t.clients| == |t.clients.Keys| == |s.clients.Keys + {a}|;
    forall b, c | b in t.clients && c in t.clients && b != c
      ensures t.clients[b].player != t.clients[c].player && t.clients[b].entity != t.clients[c].entity
    {
      assert b != a ==> t.clients[b] == s.clients[b];
      assert c != a ==> t.clients[c] == s.clients[c];
    }
  }

  lemma InsertFields(h: History)
    requires h.join.Checked?
    ensures var h', a := Apply(h, InsertClient), h.join.addr;
      && h'.s == Insert(h.s, a) && h'.join == Inserted(a) && h'.synced == h.synced && h'.updated == h.updated
      && h'.sent == h.sent[a := []] && h'.lost == h.lost[a := {}]
      && h'.sent.Keys == h.sent.Keys + {a} && h'.lost.Keys == h.lost.Keys + {a}
  {
  }

  lemma InsertClients(h: History)
    requires ClientsOk(h) && h.join.Checked?
    ensures ClientsOk(Apply(h, InsertClient))
  {
    InsertFields(h);
    var h', keys, a := Apply(h, InsertClient), h.s.clients.Keys, h.join.addr;
    InsertedClients(h.s, a);
    assert h'.sent.Keys == keys + {a} && h'.synced <= keys;
  }

  lemma NewCopy(h: History, a: Addr)
    requires a in h.sent && a in h.lost && h.sent[a] == [] && h.lost[a] == {} && a !in h.synced
    ensures CopyOk(h, a)
  {
    assert Copy(h, a) == {} && Astray(h, a) == {};
  }

  lemma InsertCopy(h: History, b: Addr)
    requires IdsOk(h.s) && ClientsOk(h) && CopiesOk(h)
    requires h.join.Checked? && Insert(h.s, h.join.addr).nextPlayerId <= FIRST_OBSTACLE_ID
    requires b in h.sent || b == h.join.addr
    ensures var h' := Apply(h, InsertClient); b in h'.sent && b in h'.lost && CopyOk(h', b)
  {
    var h' := Apply(h, InsertClient);
    InsertFields(h);
    if b == h.join.addr {
      NewCopy(h', b);
    } else {
      AddedEntity(h.s, h'.s, Player(h.s.nextPlayerId));
      CopyFrame(h, h', b);
    }
  }

  lemma SnapshotCopy(h: History, order: seq<nat>, b: Addr)
    requires IdsOk(h.s) && ClientsOk(h) && CopiesOk(h) && h.s.nextPlayerId <= FIRST_OBSTACLE_ID
    requires h.join.Inserted? && Enumerates(order, h.s.valid) && b in h.sent
    ensures var h' := Apply(h, SendSnapshot(order)); b in h'.sent && b in h'.lost && CopyOk(h', b)
  {
    var h', a := Apply(h, SendSnapshot(order)), h.join.addr;
    assert CopyOk(h, b);
    if b == a {
      ReplayConcat({}, h.sent[a], Snapshot(h.s, order));
      ReplaySnapshot(Copy(h, a), h.s, order);
      SnapshotIsComplete(h.s, order);
      LiveIds(h.s);
      assert Copy(h', a) == Copy(h, a) + NonPlayerIds(h.s);
    } else {
      CopyFrame(h, h', b);
    }
  }

  lemma SnapshotFrame(h: History, order: seq<nat>)
    requires ClientsOk(h)
    ensures var h' := Apply(h, SendSnapshot(order));
      ClientsOk(h') && h'.s == h.s && h'.updated == h.updated && h'.sent.Keys == h.sent.Keys
  {
    var h' := Apply(h, SendSnapshot(order));
    if h.join.Inserted? && h.join.addr in h.sent {
      assert h'.sent.Keys == h.sent.Keys && h.join.addr in h.s.clients;
    }
  }

  lemma SnapshotKeeps(h: History, order: seq<nat>)
    requires Inv(h) && h.join.Inserted? && Enumerates(order, h.s.valid) && h.s.nextPlayerId <= FIRST_OBSTACLE_ID
    ensures Inv(Apply(h, SendSnapshot(order)))
  {
    var h' := Apply(h, SendSnapshot(order));
    SnapshotFrame(h, order);
    forall b | b in h'.sent && b in h'.lost
      ensures CopyOk(h', b)
    {
      SnapshotCopy(h, order, b);
    }
  }

  lemma EraseClients(h: History, a: Addr)
    requires ClientsOk(h)
    ensures ClientsOk(Apply(h, Erase(a)))
  {
    var s' := Apply(h, Erase(a)).s;
    assert s'.clients.Keys <= h.s.clients.Keys;
    Subset(s'.clients.Keys, h.s.clients.Keys);
    assert ClientsDistinct(s');
  }

  lemma EraseCopy(h: History, a: Addr, b: Addr)
    requires CopiesOk(h) && b in h.sent && b in h.lost && a != b
    ensures var h' := Apply(h, Erase(a)); b in h'.sent && b in h'.lost && CopyOk(h', b)
  {
    var h' := Apply(h, Erase(a));
    SameEntities(h.s, h'.s);
    CopyFrame(h, h', b);
  }

  lemma EraseKeeps(h: History, a: Addr)
    requires Inv(h)
    ensures Inv(Apply(h, Erase(a)))
  {
    var h' := Apply(h, Erase(a));
    SameEntities(h.s, h'.s);
    IdsFrame(h.s, h'.s);
    EraseClients(h, a);
    forall b | b in h'.sent && b in h'.lost
      ensures CopyOk(h', b)
    {
      EraseCopy(h, a, b);
    }
  }

  /** A death takes the entity's id away, unless another live one has it too. */
  lemma KilledIds(s: State, e: nat)
    requires IdsOk(s)
    ensures NonPlayerIds(Kill(s, e)) <= NonPlayerIds(s)
    ensures forall id :: id in NonPlayerIds(s) && !(Replicated(s, e) && s.entities[e].netId.value == id) ==>
      id in NonPlayerIds(Kill(s, e))
    ensures Replicated(s, e) && !Issued(s, s.entities[e].netId.value) ==>
      s.entities[e].netId.value !in NonPlayerIds(Kill(s, e))
    ensures Replicated(s, e) ==> DeadId(Kill(s, e), s.entities[e].netId.value)
    ensures forall id :: DeadId(s, id) ==> DeadId(Kill(s, e), id)
  {
    var t := Kill(s, e);
    forall id | id in NonPlayerIds(s) && !(Replicated(s, e) && s.entities[e].netId.value == id)
      ensures id in NonPlayerIds(t)
    {
      var f :| Replicated(s, f) && s.entities[f].netId.value == id;
      assert Replicated(s, f);
      assert Replicated(t, f);
    }
    forall id | id in NonPlayerIds(t)
      ensures id in NonPlayerIds(s)
      ensures Replicated(s, e) && s.entities[e].netId.value == id ==> Issued(s, id)
    {
      var f :| Replicated(t, f) && t.entities[f].netId.value == id;
      assert Replicated(t, f);
      assert Replicated(s, f);
      assert e != f && (Replicated(s, e) && s.entities[e].netId.value == id ==> ShareId(s, e, f));
    }
  }

  lemma KillCopy(h: History, e: nat, a: Addr)
    requires IdsOk(h.s) && CopiesOk(h) && a in h.sent && a in h.lost
    ensures var h' := Apply(h, Die(e)); a in h'.sent && a in h'.lost && CopyOk(h', a)
  {
    KilledIds(h.s, e);
    assert CopyOk(h, a);
    assert Copy(Apply(h, Die(e)), a) == Copy(h, a);
  }

  lemma KilledIdsOk(s: State, e: nat)
    requires IdsOk(s)
    ensures IdsOk(Kill(s, e))
  {
    assert forall c :: c in s.entities ==> (IdFits(s, s.entities[c]) <==> IdFits(Kill(s, e), s.entities[c]));
  }

  lemma KillKeeps(h: History, e: nat)
    requires Inv(h)
    ensures Inv(Apply(h, Die(e)))
  {
    var h' := Apply(h, Die(e));
    KilledIdsOk(h.s, e);
    KilledIds(h.s, e);
    ClientsFrame(h, h');
    forall a | a in h'.sent && a in h'.lost
      ensures CopyOk(h', a)
    {
      KillCopy(h, e, a);
    }
  }
}
