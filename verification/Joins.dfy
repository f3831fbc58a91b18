/** What a join and a level owe: who is admitted, what a newcomer gets, and the obstacles a map
    asks for. */
module Joins {
  import opened Common
  import opened GameSession
  import opened Replication
  import opened ReplicaRuns

  // Joining.

  /** In every run: a known address is answered with its player id, an unknown one is turned away
      exactly when there are four clients, and goes ahead exactly when there are fewer. */
  lemma AdmissionRule(base: nat, n: nat, steps: seq<Step>, a: Addr)
    ensures var s := Run(Start(base, n), steps).s;
      && (forall p :: CheckJoin(s, a) == AlreadyIn(p) <==> a in s.clients && p == s.clients[a].player)
      && (CheckJoin(s, a) == Full <==> a !in s.clients && |s.clients| == 4)
      && (CheckJoin(s, a) == Proceed <==> a !in s.clients && |s.clients| < 4)
  {
    RunClients(base, n, steps);
    assert Connected(Run(Start(base, n), steps).s) == Run(Start(base, n), steps).s.clients.Keys;
  }

  /** The three sections of a join without anything in between, in any reachable state with room:
      the newcomer gets the next player id and a live player entity carrying it, with position and
      velocity; no one else's entry or entity changes; and its copy is exact at once. */
  lemma JoinCompletes(base: nat, n: nat, steps: seq<Step>, a: Addr, order: seq<nat>)
    requires var h := Run(Start(base, n), steps);
      && BaseOk(base) && h.s.nextPlayerId < FIRST_OBSTACLE_ID && h.s.nextNetworkId <= U32_LIMIT
      && h.join == NoJoin && a !in h.s.clients && |h.s.clients| < 4
      && Enumerates(order, h.s.valid + {h.s.next})
    ensures var h := Run(Start(base, n), steps);
      var g := Apply(Apply(Apply(h, BeginJoin(a)), InsertClient), SendSnapshot(order));
      && g.join == NoJoin && a in g.synced && a in g.sent && Copy(g, a) == NonPlayerIds(g.s)
      && g.s.clients == h.s.clients[a := Client(h.s.nextPlayerId, h.s.next, true)]
      && g.s.nextPlayerId == h.s.nextPlayerId + 1
      && g.s.valid == h.s.valid + {h.s.next}
      && g.s.entities == h.s.entities[h.s.next := Entity(Some(h.s.nextPlayerId), true, true, true, false, None)]
  {
    var h := Run(Start(base, n), steps);
    RunKeeps(base, n, steps);
    AdmissionRule(base, n, steps, a);
    JoinOn(h, a, order);
  }

  lemma JoinOn(h: History, a: Addr, order: seq<nat>)
    requires IdsOk(h.s) && CheckJoin(h.s, a) == Proceed && h.join == NoJoin && h.s.nextPlayerId < FIRST_OBSTACLE_ID
    requires Enumerates(order, h.s.valid + {h.s.next})
    ensures var g := Apply(Apply(Apply(h, BeginJoin(a)), InsertClient), SendSnapshot(order));
      && g.s == Insert(h.s, a)
      && g.join == NoJoin && a in g.synced && a in g.sent && Copy(g, a) == NonPlayerIds(g.s)
  {
    var g2 := Apply(Apply(h, BeginJoin(a)), InsertClient);
    InsertFields(Apply(h, BeginJoin(a)));
    var g := Apply(g2, SendSnapshot(order));
    assert g.sent[a] == [] + Snapshot(g2.s, order) == Snapshot(g2.s, order);
    AddedIds(h.s, g2.s, Player(h.s.nextPlayerId));
    ReplaySnapshot({}, g2.s, order);
    SnapshotIsComplete(g2.s, order);
  }

  // Levels.

  /** The places of a row where the map asks for an obstacle. */
  function Marks(row: string): set<nat> {
    set i: nat | i < |row| && row[i] in {'1', '2', '3', '4'}
  }

  lemma {:induction false} RowCount(row: string)
    ensures ObstaclesInRow(row) == |Marks(row)|
    decreases |row|
  {
    if row == [] {
      assert Marks(row) == {};
    } else {
      var m := |row| - 1;
      RowCount(row[..m]);
      assert Marks(row) == Marks(row[..m]) + if row[m] in {'1', '2', '3', '4'} then {m} else {};
    }
  }

  /** The obstacles of a level: as many as its map has digits from 1 to 4, with consecutive ids,
      and beside them only the bounds, the rules and the spawner, which have none. */
  lemma LevelHasItsObstacles(base: nat, rows: seq<string>, e: nat)
    ensures var s := Started(base, ObstaclesIn(rows));
      && (e in s.valid <==> e < ObstaclesIn(rows) + 3) && (e in s.entities <==> e in s.valid)
      && (2 <= e < ObstaclesIn(rows) + 2 ==>
            s.entities[e] == Entity(Some(base + e - 2), true, true, false, false, None))
      && (e in s.entities && !(2 <= e < ObstaclesIn(rows) + 2) ==> s.entities[e].netId.None?)
  {
    StartedEntities(base, ObstaclesIn(rows));
  }

  lemma {:induction false} MapCount(rows: seq<string>, k: nat)
    requires k < |rows|
    ensures ObstaclesIn(rows[..k + 1]) == ObstaclesIn(rows[..k]) + |Marks(rows[k])|
  {
    assert rows[..k + 1][..k] == rows[..k];
    RowCount(rows[k]);
  }
}
