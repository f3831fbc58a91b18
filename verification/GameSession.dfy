/** A game session: its entities, its clients and what it tells them about entities appearing
    and disappearing (server/src/GameSession.cpp, server/src/BroadcastSystem.cpp). The registry
    is taken by its meaning, as a map; of an entity's components only those are kept that decide
    what is told. */
module GameSession {
  import opened Common

  const FIRST_OBSTACLE_ID: nat := 10000
  const FIRST_DYNAMIC_ID: nat := 20000
  const MAX_PLAYERS: nat := 4

  /** `world` marks the spawner and the map bounds; `stage` a "stage cleared" notice and
      whether it has been sent. */
  datatype Entity = Entity(netId: Option<nat>, hasPosition: bool, hasVelocity: bool, player: bool, world: bool,
                           stage: Option<bool>)

  datatype Client = Client(player: nat, entity: nat, connected: bool)

  /** The messages that tell a client which entities exist; and that a stage is cleared, by its
      notice. */
  datatype Message = Spawn(id: nat) | Destroy(id: nat) | Cleared(notice: nat)

  datatype State = State(next: nat, valid: set<nat>, entities: map<nat, Entity>,
                         lastKnown: set<nat>, nextNetworkId: nat,
                         clients: map<Addr, Client>, nextPlayerId: nat)

  const EMPTY := State(0, {}, map[], {}, FIRST_DYNAMIC_ID, map[], 1)

  predicate Enumerates(order: seq<nat>, s: set<nat>) {
    && (forall i :: 0 <= i < |order| ==> order[i] in s)
    && (forall e :: e in s ==> e in order)
    && (forall i, j :: 0 <= i < j < |order| ==> order[i] != order[j])
  }

  /** Entity ids are issued in order and keep their components for ever. */
  ghost predicate Wf(s: State) {
    (forall e: nat :: e in s.entities <==> e < s.next) && (forall e: nat :: e in s.valid ==> e < s.next)
  }

  /** The network ids of live entities. */
  function NetIds(s: State): set<nat> {
    set e | e in s.valid && e in s.entities && s.entities[e].netId.Some? :: s.entities[e].netId.value
  }

  predicate Replicated(s: State, e: nat) {
    e in s.valid && e in s.entities && s.entities[e].netId.Some? && !s.entities[e].player
  }

  /** The network ids that a client's copy should hold: those of live entities but players. */
  function NonPlayerIds(s: State): set<nat> {
    set e | e in s.valid && Replicated(s, e) :: s.entities[e].netId.value
  }

  // Entities.

  function AddEntity(s: State, e: Entity): State {
    s.(next := s.next + 1, valid := s.valid + {s.next}, entities := s.entities[s.next := e])
  }

  function Kill(s: State, e: nat): State {
    s.(valid := s.valid - {e})
  }

  const WORLD_ENTITY := Entity(None, false, false, false, true, None)
  const RULES_ENTITY := Entity(None, false, false, false, false, None)

  function Obstacle(id: nat): Entity {
    Entity(Some(id), true, true, false, false, None)
  }

  function Player(id: nat): Entity {
    Entity(Some(id), true, true, true, false, None)
  }

  predicate IsObstacle(c: char) {
    c == '1' || c == '2' || c == '3' || c == '4'
  }

  function ObstaclesInRow(row: string): nat
    decreases |row|
  {
    if row == [] then 0 else ObstaclesInRow(row[..|row| - 1]) + if IsObstacle(row[|row| - 1]) then 1 else 0
  }

  function ObstaclesIn(rows: seq<string>): nat
    decreases |rows|
  {
    if rows == [] then 0 else ObstaclesIn(rows[..|rows| - 1]) + ObstaclesInRow(rows[|rows| - 1])
  }

  function AddObstacles(s: State, base: nat, n: nat): State {
    if n == 0 then s else AddEntity(AddObstacles(s, base, n - 1), Obstacle(base + n - 1))
  }

  /** A session when its thread starts: bounds, rules, the level's obstacles, the spawner. */
  function Started(base: nat, obstacles: nat): State {
    AddEntity(AddObstacles(AddEntity(AddEntity(EMPTY, WORLD_ENTITY), RULES_ENTITY), base, obstacles), WORLD_ENTITY)
  }

  // Joining.

  function Connected(s: State): set<Addr> {
    set a | a in s.clients && s.clients[a].connected
  }

  datatype JoinReply = AlreadyIn(player: nat) | Full | Proceed

  /** The first critical section of a join. */
  function CheckJoin(s: State, a: Addr): JoinReply {
    if a in s.clients then AlreadyIn(s.clients[a].player)
    else if |Connected(s)| >= MAX_PLAYERS then Full
    else Proceed
  }

  /** The second critical section: a player entity and a client entry. */
  function Insert(s: State, a: Addr): State {
    AddEntity(s, Player(s.nextPlayerId)).(
      clients := s.clients[a := Client(s.nextPlayerId, s.next, true)], nextPlayerId := s.nextPlayerId + 1)
  }

  /** The last one: everything networked, but players, told to the newcomer. */
  function Snapshot(s: State, order: seq<nat>): seq<Message>
    decreases |order|
  {
    if order == [] then []
    else
      var e := order[|order| - 1];
      Snapshot(s, order[..|order| - 1]) +
        if Replicated(s, e) && s.entities[e].hasPosition then [Spawn(s.entities[e].netId.value)] else []
  }

  // The broadcast of one tick.

  predicate Unannounced(s: State, e: nat) {
    e in s.entities && var c := s.entities[e];
    c.hasPosition && c.hasVelocity && !c.player && !c.world && c.netId.None?
  }

  /** The entities to announce, in the order walked, with the ids they get. */
  function Pending(s: State, order: seq<nat>): (p: seq<(nat, nat)>)
    decreases |order|
  {
    if order == [] then []
    else
      var p := Pending(s, order[..|order| - 1]);
      var e := order[|order| - 1];
      if Unannounced(s, e) then p + [(e, (s.nextNetworkId + |p|) % U32_LIMIT)] else p
  }

  function WithIds(entities: map<nat, Entity>, p: seq<(nat, nat)>): map<nat, Entity>
    decreases |p|
  {
    if p == [] then entities
    else
      var m := WithIds(entities, p[..|p| - 1]);
      var (e, id) := p[|p| - 1];
      if e in m then m[e := m[e].(netId := Some(id))] else m
  }

  function Spawns(p: seq<(nat, nat)>): seq<Message> {
    seq(|p|, i requires 0 <= i < |p| => Spawn(p[i].1))
  }

  function Deaths(order: seq<nat>, current: set<nat>): seq<Message>
    decreases |order|
  {
    if order == [] then []
    else
      var last := order[|order| - 1];
      Deaths(order[..|order| - 1], current) + if last in current then [] else [Destroy(last)]
  }

  function Announced(s: State, order: seq<nat>): State {
    var p := Pending(s, order);
    s.(entities := WithIds(s.entities, p), nextNetworkId := s.nextNetworkId + |p|)
  }

  predicate UnsentNotice(s: State, e: nat) {
    e in s.valid && e in s.entities && s.entities[e].stage == Some(false)
  }

  function Notices(s: State, order: seq<nat>): seq<Message>
    decreases |order|
  {
    if order == [] then []
    else
      var last := order[|order| - 1];
      Notices(s, order[..|order| - 1]) + if UnsentNotice(s, last) then [Cleared(last)] else []
  }

  /** "Stage cleared" notices are sent once and their entities destroyed. */
  function NoticesSent(s: State): State {
    s.(valid := (set e | e in s.valid && !UnsentNotice(s, e)),
       entities := map e | e in s.entities ::
         if UnsentNotice(s, e) then s.entities[e].(stage := Some(true)) else s.entities[e])
  }

  /** The entities when the notices among `done` are marked as sent. */
  function Marked(s: State, done: set<nat>): map<nat, Entity> {
    map e | e in s.entities ::
      if UnsentNotice(s, e) && e in done then s.entities[e].(stage := Some(true)) else s.entities[e]
  }

  function SentAmong(s: State, done: set<nat>): set<nat> {
    set e | e in s.valid && e in done && UnsentNotice(s, e)
  }

  lemma MarkNext(s: State, done: set<nat>, e: nat)
    requires e in s.valid && e !in done
    ensures e in s.entities ==> e in Marked(s, done) && Marked(s, done)[e] == s.entities[e]
    ensures Marked(s, done + {e}) ==
      if UnsentNotice(s, e) then Marked(s, done)[e := s.entities[e].(stage := Some(true))] else Marked(s, done)
    ensures SentAmong(s, done + {e}) == SentAmong(s, done) + if UnsentNotice(s, e) then {e} else {}
  {
  }

  lemma AllMarked(s: State)
    ensures NoticesSent(s) == s.(valid := s.valid - SentAmong(s, s.valid), entities := Marked(s, s.valid))
  {
    assert NoticesSent(s).valid == s.valid - SentAmong(s, s.valid);
    assert NoticesSent(s).entities == Marked(s, s.valid);
  }

  /** One `update`: nothing at all without clients. `order` is how the live entities, and
      `lastOrder` how the ids last known, happen to be walked. */
  function Update(s: State, order: seq<nat>, lastOrder: seq<nat>): (State, seq<Message>) {
    if s.clients == map[] then (s, [])
    else
      var s1 := Announced(s, order);
      var messages := Spawns(Pending(s, order)) + Deaths(lastOrder, NetIds(s1)) + Notices(s1, order);
      var s2 := NoticesSent(s1);
      (s2.(lastKnown := NetIds(s2)), messages)
  }

  /** The session object; its broadcaster's two fields are kept with it. Every method is one
      critical section. */
  class GameSession {
    var nextEntity: nat
    var validEntities: set<nat>
    var entities: map<nat, Entity>
    var lastKnownEntities: set<nat>
    var nextNetworkId: nat
    var clients: map<Addr, Client>
    var nextPlayerId: nat

    function Now(): State
      reads this
    {
      State(nextEntity, validEntities, entities, lastKnownEntities, nextNetworkId, clients, nextPlayerId)
    }

    constructor ()
      ensures Now() == EMPTY
    {
      nextEntity, validEntities, entities := 0, {}, map[];
      lastKnownEntities, nextNetworkId := {}, FIRST_DYNAMIC_ID;
      clients, nextPlayerId := map[], 1;
    }

    method CreateEntity(components: Entity) returns (e: nat)
      modifies this
      ensures e == old(nextEntity) && Now() == AddEntity(old(Now()), components)
    {
      e := nextEntity;
      nextEntity := nextEntity + 1;
      validEntities := validEntities + {e};
      entities := entities[e := components];
    }

    /** The obstacles of a map get consecutive ids from a counter shared by all sessions. */
    method LoadLevel(rows: seq<string>, firstId: nat) returns (nextId: nat)
      modifies this
      ensures nextId == firstId + ObstaclesIn(rows)
      ensures Now() == AddObstacles(old(Now()), firstId, ObstaclesIn(rows))
    {
      nextId := firstId;
      for r := 0 to |rows|
        invariant nextId == firstId + ObstaclesIn(rows[..r])
        invariant Now() == AddObstacles(old(Now()), firstId, nextId - firstId)
      {
        assert rows[..r + 1][..r] == rows[..r];
        var row := rows[r];
        for c := 0 to |row|
          invariant nextId == firstId + ObstaclesIn(rows[..r]) + ObstaclesInRow(row[..c])
          invariant Now() == AddObstacles(old(Now()), firstId, nextId - firstId)
        {
          assert row[..c + 1][..c] == row[..c];
          if IsObstacle(row[c]) {
            var e := CreateEntity(Obstacle(nextId));
            nextId := nextId + 1;
          }
        }
        assert row[..|row|] == row;
      }
      assert rows[..|rows|] == rows;
    }

    method Start(rows: seq<string>, firstId: nat) returns (nextId: nat)
      requires Now() == EMPTY
      modifies this
      ensures nextId == firstId + ObstaclesIn(rows) && Now() == Started(firstId, ObstaclesIn(rows))
    {
      var bounds := CreateEntity(WORLD_ENTITY);
      var rules := CreateEntity(RULES_ENTITY);
      nextId := LoadLevel(rows, firstId);
      var spawner := CreateEntity(WORLD_ENTITY);
    }

    method AdmitPlayer(a: Addr) returns (reply: JoinReply)
      ensures reply == CheckJoin(Now(), a)
    {
      if a in clients {
        return AlreadyIn(clients[a].player);
      }
      var counted: set<Addr> := {};
      var left := clients.Keys;
      while left != {}
        invariant left <= clients.Keys
        invariant counted == set b | b in clients && b !in left && clients[b].connected
        decreases left
      {
        var b :| b in left;
        left := left - {b};
        if clients[b].connected {
          counted := counted + {b};
        }
      }
      assert counted == Connected(Now());
      return if |counted| >= MAX_PLAYERS then Full else Proceed;
    }

    method InsertPlayer(a: Addr) returns (player: nat)
      modifies this
      ensures player == old(nextPlayerId) && Now() == Insert(old(Now()), a)
    {
      player := nextPlayerId;
      nextPlayerId := nextPlayerId + 1;
      var e := CreateEntity(Player(player));
      clients := clients[a := Client(player, e, true)];
    }

    method EraseClient(a: Addr)
      modifies this`clients
      ensures clients == old(clients) - {a}
    {
      clients := clients - {a};
    }

    method SendInitialState(order: seq<nat>) returns (messages: seq<Message>)
      requires Enumerates(order, validEntities)
      ensures messages == Snapshot(Now(), order)
    {
      messages := [];
      for i := 0 to |order|
        invariant messages == Snapshot(Now(), order[..i])
      {
        assert order[..i + 1][..i] == order[..i];
        var e := order[i];
        if e in entities && entities[e].netId.Some? && entities[e].hasPosition {
          if !entities[e].player {
            messages := messages + [Spawn(entities[e].netId.value)];
          }
        }
      }
      assert order[..|order|] == order;
    }

    method BroadcastSpawns(order: seq<nat>) returns (messages: seq<Message>)
      requires Enumerates(order, validEntities)
      modifies this
      ensures Now() == Announced(old(Now()), order) && messages == Spawns(Pending(old(Now()), order))
    {
      var toAdd: seq<(nat, nat)> := [];
      for i := 0 to |order|
        invariant toAdd == Pending(old(Now()), order[..i])
        invariant Now() == old(Now()).(nextNetworkId := old(nextNetworkId) + |toAdd|)
      {
        assert order[..i + 1][..i] == order[..i];
        var e := order[i];
        if e in entities && entities[e].hasPosition && entities[e].hasVelocity {
          if !entities[e].player && !entities[e].world && entities[e].netId.None? {
            var id := nextNetworkId % U32_LIMIT;
            nextNetworkId := nextNetworkId + 1;
            toAdd := toAdd + [(e, id)];
          }
        }
      }
      assert order[..|order|] == order;
      messages := [];
      for i := 0 to |toAdd|
        invariant Now() == old(Now()).(nextNetworkId := old(nextNetworkId) + |toAdd|,
                                       entities := WithIds(old(entities), toAdd[..i]))
        invariant messages == Spawns(toAdd[..i])
      {
        assert toAdd[..i + 1][..i] == toAdd[..i];
        var (e, id) := toAdd[i];
        if e in entities {
          entities := entities[e := entities[e].(netId := Some(id))];
        }
        messages := messages + [Spawn(id)];
      }
      assert toAdd[..|toAdd|] == toAdd;
    }

    method BroadcastDeaths(lastOrder: seq<nat>) returns (messages: seq<Message>)
      requires Enumerates(lastOrder, lastKnownEntities)
      ensures messages == Deaths(lastOrder, NetIds(Now()))
    {
      var current := NetIds(Now());
      messages := [];
      for i := 0 to |lastOrder|
        invariant messages == Deaths(lastOrder[..i], current)
      {
        assert lastOrder[..i + 1][..i] == lastOrder[..i];
        if lastOrder[i] !in current {
          messages := messages + [Destroy(lastOrder[i])];
        }
      }
      assert lastOrder[..|lastOrder|] == lastOrder;
    }

    method BroadcastStageCleared(order: seq<nat>) returns (messages: seq<Message>)
      requires Enumerates(order, validEntities)
      modifies this
      ensures Now() == NoticesSent(old(Now())) && messages == Notices(old(Now()), order)
    {
      ghost var s, done := Now(), {};
      var toDestroy: set<nat> := {};
      messages := [];
      for i := 0 to |order|
        invariant done == (set e | e in order[..i]) && done <= s.valid
        invariant messages == Notices(s, order[..i]) && toDestroy == SentAmong(s, done)
        invariant Now() == s.(entities := Marked(s, done))
      {
        assert order[..i + 1] == order[..i] + [order[i]] && order[..i + 1][..i] == order[..i];
        var e := order[i];
        MarkNext(s, done, e);
        if e in entities && entities[e].stage == Some(false) {
          messages := messages + [Cleared(e)];
          entities := entities[e := entities[e].(stage := Some(true))];
          toDestroy := toDestroy + {e};
        }
        done := done + {e};
      }
      assert order[..|order|] == order;
      assert done == s.valid;
      AllMarked(s);
      validEntities := validEntities - toDestroy;
    }

    /** The broadcaster's `update`; the messages go to every connected client. */
    method Broadcast(order: seq<nat>, lastOrder: seq<nat>) returns (messages: seq<Message>)
      requires Enumerates(order, validEntities) && Enumerates(lastOrder, lastKnownEntities)
      modifies this
      ensures (Now(), messages) == Update(old(Now()), order, lastOrder)
    {
      if clients == map[] {
        return [];
      }
      var spawns := BroadcastSpawns(order);
      var deaths := BroadcastDeaths(lastOrder);
      var notices := BroadcastStageCleared(order);
      messages := spawns + deaths + notices;
      lastKnownEntities := NetIds(Now());
    }
  }
}
