# Verification of the R-Type server's rules

A Dafny model of the authoritative game server and its scoreboard, with proofs about every run.
`dafny verify dfyconfig.toml` checks it all.

Each piece has the form of its source: an object that changes its fields is a class whose methods
change theirs, loops are loops with invariants, and every method is proved equal to a function of
the old state. The protocol pieces then turn those functions into steps, and the theorems speak of
every sequence of steps: messages, ticks, timeouts, joins and other threads' work in any order.

| part | files |
|---|---|
| Replication: what each client knows of the server's entities | `GameSession.dfy`, `Replication.dfy`, `ReplicaRuns.dfy`, `Announcements.dfy`, `Joins.dfy`, `NetworkIds.dfy` |
| Session routing: rooms, joins, posted removals | `Server.dfy`, `Routing.dfy`, `Routes.dfy` |
| Entity registry over growable sparse arrays | `SparseArray.dfy`, `Registry.dfy` |
| Collisions, hit points, lives, force pods | `Combat.dfy`, `CombatLaws.dfy`, `CombatSystems.dfy`, `CombatRuns.dfy`, `Damage.dfy`, `Outcomes.dfy`, `PairLoop.dfy` |
| An obstacle pushing a player out | `PushOut.dfy` |
| Waves, levels and boss warnings | `SpawnSystem.dfy`, `WaveSchedule.dfy`, `LevelOrder.dfy`, `LevelDefs.dfy`, `Text.dfy` |
| Wire format | `Bytes.dfy`, `MessageData.dfy`, `Packet.dfy`, `MessageSerializer.dfy`, `WireBytes.dfy` |
| Scoreboard: best ten, save and load | `ScoreData.dfy`, `ScoreboardText.dfy`, `ScoreboardLines.dfy` |
| Types used by several parts | `Common.dfy` |

## What is proved, in short

- **Replication.** After every tick with clients, a client that has had its snapshot holds, by
  folding the spawn and destroy messages sent to it, the ids of all live networked entities that
  are not players. Whatever else it holds is exactly the ids it had been told of whose entity died
  before the session's first broadcast with clients, unless the dynamic counter has passed them
  since; so its copy is exact if and only if there are none. This is for every session a server
  starts, wherever its shared obstacle counter then stands, while player ids stay below 10000 and
  the dynamic counter inside its 32 bits. Every live entity with position and velocity that is
  neither player nor world has an id after each tick with clients, and every such client holds it;
  each "stage cleared" notice is sent once.
- **Network ids.** An id stays with its entity for ever. Two entities of a session, live or dead,
  have the same id exactly when it is an obstacle's and the dynamic counter has passed it: so none
  do if and only if the session has no obstacles, or they lie below 20000, or the dynamic counter
  has not reached them. As soon as a session has an obstacle from 20000 on, there is a run (one
  client, enough entities, one tick) that ends with two live entities with one id.
- **Sessions.** In every interleaving each routed client's session exists, a removal is posted at
  most once and only after the session's loop has ended, rules are those of the room request, and
  at most four clients are in, although joining checks and inserts under two separate locks; a
  client that asks to join again before it has left gets the same player id. A route stays until
  its address is unmapped or joins elsewhere, or its own session is removed.
- **Combat.** In every run: the pair loop records a collision of two entities of the view if and
  only if they are there, overlap and are in layers that collide when their pair comes; a destroyed
  entity is in no later collision, so an uncharged projectile hits one enemy at most and a power-up
  serves one player at most; an enemy's hit points are its maximum less 25 for each shot; players
  stay above -20 hit points and at or below their maximum; two life losses of one player are at
  least two seconds apart (counting the time step of the first loss, which already runs down the
  shield); nobody owns more than two force pods.
- **Waves.** No run ever leaves a wave on its own with an enemy missing, repeated or out of order,
  if and only if each enemy is due by the time its wave is sure to last: its duration, and at least
  four seconds for a level's first wave headed by a boss. Such a boss appears only four seconds of
  frame time after its warning; no run announces one twice in a stay, if and only if each is due
  within four seconds or its wave lasts no longer than that. Between two deaths of Boss_1 the waves
  are left in the order of the levels, around and around.
- **Wire format.** Every message's bytes are its members in order, lowest byte first, behind its
  operation code and length. Every message of the twenty kinds comes back from its datagram, which
  the validator accepts; parsing succeeds exactly on bodies at least as long as the layout; the
  validator accepts exactly the well-formed packets despite its 16-bit sum.
- **Scoreboard.** After any adds the list is the ten best of all, whatever order ties come out in;
  loading what was saved restores it if and only if the names carry no colon or newline and do
  not start with `#`.

## Model

| member | source | states |
|---|---|---|
| GameSession.GameSession.CreateEntity | ecs/src/Registry.cpp:5-9 | the next id is issued and becomes live with the given components |
| GameSession.GameSession.LoadLevel | server/src/GameSession.cpp:39-91 | one obstacle per digit 1 to 4 of the map, with consecutive network ids; returns the advanced counter |
| GameSession.GameSession.Start | server/src/GameSession.cpp:126-140 | the world a session starts with: bounds, rules, obstacles, spawner |
| GameSession.GameSession.AdmitPlayer | server/src/GameSession.cpp:178-198 | the first critical section of a join: known address, full, or proceed |
| GameSession.GameSession.InsertPlayer | server/src/GameSession.cpp:200-209 | the second: a player entity and a client entry with the next player id |
| GameSession.GameSession.EraseClient | server/src/GameSession.cpp:614-617 | the client entry goes, and nothing else |
| GameSession.GameSession.SendInitialState | server/src/BroadcastSystem.cpp:301-409 | tells a newcomer every networked entity with a position but players |
| GameSession.GameSession.BroadcastSpawns | server/src/BroadcastSystem.cpp:59-181 | gives ids from the dynamic counter to unannounced entities and tells them |
| GameSession.GameSession.BroadcastDeaths | server/src/BroadcastSystem.cpp:183-204 | tells every last known id that no live entity has any more |
| GameSession.GameSession.BroadcastStageCleared | server/src/BroadcastSystem.cpp:411-441 | one message for each unsent notice, which is marked and its entity destroyed |
| GameSession.GameSession.Broadcast | server/src/BroadcastSystem.cpp:28-44 | one update: spawns, deaths, notices, then the ids last known; nothing at all without clients |
| Replication.ReplaySnapshot | server/src/BroadcastSystem.cpp:301-409 | folding a snapshot adds exactly the told ids |
| Replication.SnapshotIsComplete | server/src/BroadcastSystem.cpp:301-409 | a snapshot misses none of the ids a copy should hold |
| Replication.ReplaySpawns | server/src/BroadcastSystem.cpp:177-180 | folding spawn messages adds exactly the announced ids |
| Replication.ReplayDeaths | server/src/BroadcastSystem.cpp:191-203 | folding destroy messages removes exactly the vanished ids |
| Replication.AnnouncedIdsOk | server/src/BroadcastSystem.cpp:79-81 | announcing gives no id twice but those the dynamic counter has now passed |
| Replication.NoticesKeep | server/src/BroadcastSystem.cpp:411-441 | sending notices between the deaths and the new last-known set changes no networked id |
| Replication.TickState | server/src/BroadcastSystem.cpp:28-44 | the state after a tick and what its messages do to any set of ids |
| Replication.TickCopy | server/src/BroadcastSystem.cpp:28-44 | after a tick a synced copy is the live non-player ids and, disjoint from them, the ids it lost that were not given out again |
| Replication.TickKeeps | server/src/BroadcastSystem.cpp:28-44 | a tick keeps ids, clients and copies in order |
| Replication.CreateKeeps | ecs/src/Registry.cpp:5-9 | creating entities at any time keeps the invariant |
| Replication.KillKeeps | ecs/src/Registry.cpp:11-15 | destroying any entity at any time keeps it |
| Replication.BeginKeeps | server/src/GameSession.cpp:178-198 | so does the check of a join |
| Replication.InsertKeeps | server/src/GameSession.cpp:200-209 | so does the insertion, even when other steps fell between: there is still room |
| Replication.SnapshotKeeps | server/src/GameSession.cpp:231-236 | so does the snapshot, ticks since the insertion included |
| Replication.EraseKeeps | server/src/GameSession.cpp:594-617 | so does erasing a client at any time, from any thread |
| ReplicaRuns.IdleTick | server/src/BroadcastSystem.cpp:28-30 | without clients an update changes nothing at all |
| ReplicaRuns.StepKeeps | server/src/GameSession.cpp:165-257 | every step of any thread keeps the invariant |
| ReplicaRuns.StartIsGood | server/src/GameSession.cpp:126-140 | a session starts in order wherever the shared obstacle counter stands |
| ReplicaRuns.RunKeeps | server/src/GameSession.cpp:312-464 | every reachable state of every session is in order while player ids and the dynamic counter are in range |
| ReplicaRuns.LostExactly | server/src/BroadcastSystem.cpp:28-44 | in every run a client has lost just the ids it was told of whose entity died before the first broadcast with clients, since it was inserted |
| ReplicaRuns.ReplicaIsExact | server/src/BroadcastSystem.cpp:28-44 | for every run: after a tick a synced copy has all live non-player ids, and besides exactly the lost ids not given out again; so it is exact if and only if there are none |
| ReplicaRuns.EarlyDeathIsLost | server/src/BroadcastSystem.cpp:183-204 | a run after whose tick a client still holds the id of a dead obstacle |
| ReplicaRuns.RunClients | server/src/GameSession.cpp:165-257 | the clients are in order in every run, whatever the ids and counters |
| ReplicaRuns.JoinCap | server/src/GameSession.cpp:178-209 | in every run at most four clients, with distinct player ids and entities below their counters |
| ReplicaRuns.RejoinGetsTheSameId | server/src/GameSession.cpp:178-187 | until it is erased a client keeps its entry through any steps, and joining again changes nothing and gets the same id |
| Announcements.TickOnEntity | server/src/BroadcastSystem.cpp:63-175 | a tick gives ids to live entities with position and velocity that are neither player nor world and have none, and to no others |
| Announcements.EveryoneIsAnnounced | server/src/BroadcastSystem.cpp:59-181 | in every run each such entity has an id after a tick with clients, and every synced client holds it |
| Announcements.TickOnNotices | server/src/BroadcastSystem.cpp:411-441 | a tick with clients sends one message for each live unsent notice and destroys just these |
| Announcements.NoticeIsSentOnce | server/src/BroadcastSystem.cpp:411-441 | over any run no notice is sent twice |
| Joins.AdmissionRule | server/src/GameSession.cpp:178-198 | in every run: known addresses get their id, unknown ones are turned away exactly at four clients |
| Joins.JoinCompletes | server/src/GameSession.cpp:200-236 | a join gives the next player id and a live player entity with it, changes no one else's, and its snapshot is exact |
| Joins.RowCount | server/src/GameSession.cpp:49-56 | a map row asks for one obstacle for each of its digits 1 to 4 |
| Joins.LevelHasItsObstacles | server/src/GameSession.cpp:126-140 | a session starts with just these, with consecutive ids, beside bounds, rules and spawner |
| NetworkIds.AnnouncedRegistered | server/src/BroadcastSystem.cpp:171-175 | announcing keeps the register: obstacles their block of ids, every id the dynamic counter has passed with one other entity |
| NetworkIds.RunRegistered | server/src/BroadcastSystem.cpp:79-81 | every run keeps that register |
| NetworkIds.SharedExactly | server/src/GameSession.cpp:46-83 | two entities, live or dead, share an id exactly when it is an obstacle's that the dynamic counter has passed |
| NetworkIds.IdsAreDistinctExactly | server/src/GameSession.cpp:46-83 | all ids are distinct if and only if there are no obstacles, or they lie below 20000, or the dynamic counter has not reached them |
| NetworkIds.IdsAreNeverReissued | server/src/BroadcastSystem.cpp:171-175 | an id stays with its entity through any run, and another has it exactly in that case |
| NetworkIds.OverrunIsReached | server/src/BroadcastSystem.cpp:171-175 | for every session with an obstacle from 20000 on, a run in range that ends with two live entities with one id |
| Server.FirstFree | server/src/Server.cpp:118-124 | the first id from the counter on that no live session has |
| Server.SomeIdIsFree | server/src/Server.cpp:118-124 | with fewer live sessions than ids one is free, so the search ends |
| Server.AllocatedIdIsFresh | server/src/Server.cpp:118-124 | the allocated id is no live session's, and until the counter wraps it is not below the counter, which then passes it |
| Server.Server.AllocateSessionId | server/src/Server.cpp:118-124 | the loop terminates, wrapping included, with that id |
| Server.Server.GetOrCreateSession | server/src/Server.cpp:126-150 | creates a missing session with its recorded rules, else the defaults |
| Server.Server.UnmapClient | server/src/Server.cpp:152-155 | removes one route |
| Server.Server.RemoveSession | server/src/Server.cpp:157-180 | removes the session and exactly the routes to it |
| Server.Server.RecordRoom | server/src/Server.cpp:223-234 | records the rules that a room request asks for |
| Server.Server.MapClient | server/src/Server.cpp:259-262 | routes a client |
| Routing.AllocateKeeps | server/src/Server.cpp:118-124 | allocating keeps ids increasing and gives one that is not live |
| Routing.RemovalKeeps | server/src/Server.cpp:157-180 | running any posted removal keeps the invariant |
| Routing.PostKeeps | server/src/GameSession.cpp:466-467 | posting a removal keeps each at most once in the queue |
| Routing.StepKeeps | server/src/Server.cpp:182-294 | every step of the network thread and of any game thread keeps routing, removals, rules and ids in order |
| Routing.RunKeeps | server/src/Server.cpp:182-294 | in every interleaving: every route leads to a live session, removals are posted once, rules are the recorded ones, ids increase |
| Routing.RemovalIsSafe | server/src/Server.cpp:157-180 | a removal that runs erases a session whose loop has ended and leaves no route to it |
| Routing.RoutedMessagesArrive | server/src/Server.cpp:266-293 | a routed client's message reaches its session exactly when the session's id is not 0, which takes a wrapped counter; the branch for a missing session is not taken |
| Routes.RemovalSparesOthers | server/src/Server.cpp:157-180 | a removal leaves every other session and every route to one as it was |
| Routes.RouteStaysOn | server/src/Server.cpp:152-173 | in every run a route stays until its address is unmapped or joins again, or its own session is removed |
| Routes.AcceptedJoinRoutes | server/src/Server.cpp:246-262 | an accepted join routes the client to the session it named, or to a new one, and nobody else anywhere |
| Routes.SessionStaysOn | server/src/Server.cpp:126-180 | a session stays, with its rules, until its own removal |
| Routes.SessionsPlayByTheirRequest | server/src/Server.cpp:223-234 | in every run a session's mode, difficulty, lives and friendly fire are those of the last request for its id, else the defaults |
| SparseArray.SparseArray.Grow | ecs/include/SparseArray.hpp:27-32 | growing changes no slot |
| SparseArray.SparseArray.Index | ecs/include/SparseArray.hpp:27-32 | reading a slot grows the storage and changes none |
| SparseArray.SparseArray.EmplaceAt | ecs/include/SparseArray.hpp:81-87 | writes one slot and no other |
| SparseArray.SparseArray.Erase | ecs/include/SparseArray.hpp:89-93 | empties one slot and no other |
| Registry.Registry.CreateEntity | ecs/src/Registry.cpp:5-9 | issues the next id; components stay |
| Registry.Registry.DestroyEntity | ecs/src/Registry.cpp:11-15 | the entity is no longer live; its components stay |
| Registry.Registry.IsValid | ecs/src/Registry.cpp:17-19 | whether the entity is live |
| Registry.Registry.Clear | ecs/src/Registry.cpp:21-25 | the empty registry |
| Registry.Registry.GetOrCreateStorage | ecs/include/Registry.hpp:130-141 | storage of its own for each component type, nothing else changed |
| Registry.Registry.AddComponent | ecs/include/Registry.hpp:34-38 | refines writing one key of a map |
| Registry.Registry.GetComponent | ecs/include/Registry.hpp:42-48 | refines reading it; a missing component is an error; nothing changes |
| Registry.Registry.RemoveComponent | ecs/include/Registry.hpp:51-54 | refines deleting one key |
| Registry.Registry.HasComponent | ecs/include/Registry.hpp:57-64 | refines a membership test although it may grow storage |
| Registry.Registry.HasAllComponents | ecs/include/Registry.hpp:144-146 | all the given components are present |
| Registry.Registry.View | ecs/include/Registry.hpp:67-75 | exactly the live entities with all the components, each once |
| Registry.RunKeepsIssuedOnly | ecs/include/Registry.hpp:34-38 | components stay on issued ids in every run, clearing included, that adds to issued ids only |
| Registry.NewEntityIsBare | ecs/src/Registry.cpp:5-15 | after every such run a new entity has no component, though destroyed ones keep theirs |
| Registry.EarlyComponentShows | ecs/include/Registry.hpp:34-38 | adding to an id not yet issued breaks that |
| Registry.LiveExactly | ecs/src/Registry.cpp:5-25 | an entity is live after a run exactly if it was or was created, and nothing destroyed or cleared it since |
| Registry.DeadReturnsExactly | ecs/src/Registry.cpp:5-25 | a destroyed id is live again exactly if the registry was cleared and then created it anew |
| Registry.DeadStaysDead | ecs/src/Registry.cpp:5-15 | without clearing a destroyed entity never becomes live again |
| Registry.ComponentsOutliveEntities | ecs/src/Registry.cpp:11-15 | destroying leaves components in place |
| CombatSystems.Battle.HurtPlayer | ecs/src/systems/CollisionSystem.cpp:163-179 | damage to a player who has hit points; destroyed at none left without lives |
| CombatSystems.Battle.CountPods | ecs/src/systems/CollisionSystem.cpp:466-474 | the number of live force pods of an owner |
| CombatSystems.Battle.SlayEnemy | ecs/src/systems/CollisionSystem.cpp:215-276 | boss notices and level change, score event, pod drop, destruction |
| CombatSystems.Battle.ShootEnemy | ecs/src/systems/CollisionSystem.cpp:181-285 | the projectile goes unless charged, the enemy loses 25 and dies at none left |
| CombatSystems.Battle.SpawnCompanion | ecs/src/systems/CollisionSystem.cpp:463-522 | one more pod up to two; with the second, pods lying about disappear |
| CombatSystems.Battle.CollectPowerUp | ecs/src/systems/CollisionSystem.cpp:311-336 | a pod, or 30 hit points up to the maximum; the power-up is gone |
| CombatSystems.Battle.PushPlayer | ecs/src/systems/CollisionSystem.cpp:351-380 | one push along the axis of smaller overlap |
| CombatSystems.Battle.HandleCollision | ecs/src/systems/CollisionSystem.cpp:158-445 | the chain of branches does what the table of layer pairs says |
| CombatSystems.Battle.MayCollide | ecs/src/systems/CollisionSystem.cpp:110-156 | the chain of tests decides as the table does |
| CombatSystems.Battle.Pairs | ecs/src/systems/CollisionSystem.cpp:74-101 | the inner loop, stopping when its entity is destroyed |
| CombatSystems.Battle.UpdateCollisions | ecs/src/systems/CollisionSystem.cpp:33-103 | the pair loop in any view order |
| CombatSystems.Battle.LoseLives | ecs/src/systems/LivesSystem.cpp:17-92 | life losses, respawns and final deaths |
| CombatSystems.Battle.TickShields | ecs/src/systems/LivesSystem.cpp:94-114 | shields run down and end |
| CombatSystems.Battle.UpdateLives | ecs/src/systems/LivesSystem.cpp:16-115 | the loops over views come to one pass per entity, in no particular order |
| CombatLaws.HandledSymmetric | ecs/src/systems/CollisionSystem.cpp:158-445 | it does not matter which of the two entities comes first |
| CombatLaws.HandledKeeps | ecs/src/systems/CollisionSystem.cpp:158-445 | one collision keeps every live entity sound and destroys those it dooms |
| CombatLaws.MeetKeeps | ecs/src/systems/CollisionSystem.cpp:83-100 | between any two pairs of the loop everything is in order, and inactive entities lose no hit points |
| CombatLaws.CollidedKeeps | ecs/src/systems/CollisionSystem.cpp:33-103 | so after the whole loop; no entity comes back to life |
| CombatLaws.WithPodKeeps | ecs/src/systems/CollisionSystem.cpp:463-522 | a new pod keeps the bound of two per player |
| CombatLaws.LivedKeeps | ecs/src/systems/LivesSystem.cpp:16-115 | a life step keeps everything in order, with a positive shield on whoever is inactive |
| CombatRuns.ServerEntities | server/src/GameSession.cpp:748-770 | the server's players with a life, enemies with hit points and projectiles may all be created in a run |
| CombatRuns.RunKeeps | server/src/GameSession.cpp:101-111 | every state reachable by any interleaving of the systems is in order |
| CombatRuns.ReachableBounds | ecs/src/systems/CollisionSystem.cpp:163-205 | hit point bounds of players and enemies, positive shields of the inactive, two pods at most |
| CombatRuns.TheDeadDoNotCollide | ecs/src/systems/CollisionSystem.cpp:51-102 | what a collision destroyed takes part in no later one, in any run |
| CombatRuns.OneVictimEach | ecs/src/systems/CollisionSystem.cpp:181-336 | one enemy per uncharged projectile, one player per enemy projectile and per power-up |
| CombatRuns.LossesAreSpaced | ecs/src/systems/LivesSystem.cpp:24-49 | two life losses of a player are at least two seconds of time steps apart |
| CombatRuns.LivesCountDown | ecs/src/systems/LivesSystem.cpp:24-92 | a live player has its first number of lives less its losses, and the loss that makes up the number destroys it |
| CombatRuns.LongStepLeavesNoShield | ecs/src/systems/LivesSystem.cpp:94-112 | the shield runs down in the very update that raises it, so a step of two seconds or more leaves none |
| Damage.HandledSpares | ecs/src/systems/CollisionSystem.cpp:158-445 | bystanders of a collision keep their hit points and, but for pods lying about, stay alive |
| Damage.PlayerHarm | ecs/src/systems/CollisionSystem.cpp:163-445 | what a collision costs or gives a player by the other's layer, and when it destroys the player |
| Damage.DamageAddsUp | ecs/src/systems/CollisionSystem.cpp:203-285 | in every run an enemy's hit points are its maximum less 25 per shot, and a shot destroys it exactly when the shots make up the maximum |
| PairLoop.TableIsExact | ecs/src/systems/CollisionSystem.cpp:110-156 | exactly which layers collide, with and without friendly fire |
| PairLoop.EveryClashIsRecorded | ecs/src/systems/CollisionSystem.cpp:51-102 | two entities of the view that are there, overlap and collide when their pair comes have a collision recorded |
| PairLoop.EveryRecordIsAClash | ecs/src/systems/CollisionSystem.cpp:51-102 | and each collision recorded is of such two |
| PairLoop.ShotsHit | ecs/src/systems/CollisionSystem.cpp:181-206 | such a shot takes 25 from the enemy before the next pair, or destroys it |
| Outcomes.WhoSurvives | ecs/src/systems/CollisionSystem.cpp:163-443 | which projectiles, power-ups, enemies and obstacles survive which collision, exactly |
| Outcomes.StageOfKill | ecs/src/systems/CollisionSystem.cpp:216-242 | a boss leaves its stage's notice, and Boss_1 alone takes the schedule to the next level |
| Outcomes.ScoreOfKill | ecs/src/systems/CollisionSystem.cpp:244-250 | 1000 or 100 points for the scorer, if live and keeping a score, and nothing for anyone else |
| Outcomes.DropOfKill | ecs/src/systems/CollisionSystem.cpp:252-276 | who leaves a force pod behind, and where |
| Outcomes.ShotKills | ecs/src/systems/CollisionSystem.cpp:186-205 | a killing shot is credited to the projectile's owner |
| Outcomes.PodGained | ecs/src/systems/CollisionSystem.cpp:463-505 | a player with fewer than two pods gets exactly one, in its place |
| Outcomes.ItemsAfterPod | ecs/src/systems/CollisionSystem.cpp:508-521 | with the second pod, and only then, the pods lying about disappear |
| Outcomes.ObstacleStops | ecs/src/systems/CollisionSystem.cpp:351-380 | how a player is pushed, that nothing else moves, and exactly when the two are then apart |
| Outcomes.LifeStep | ecs/src/systems/LivesSystem.cpp:16-115 | what a life step makes of each live entity, member by member |
| PushOut.ShiftSeparates | ecs/src/systems/CollisionSystem.cpp:365-378 | on one axis, exactly when a push separates |
| PushOut.SinglePushSeparates | ecs/src/systems/CollisionSystem.cpp:365-378 | a single push separates exactly when neither interval reaches past the other on the side pushed from |
| PushOut.OnePush | ecs/src/systems/CollisionSystem.cpp:365-378 | a push that does not separate takes one off the number needed and keeps axis and side |
| PushOut.PushesConverge | ecs/src/systems/CollisionSystem.cpp:365-378 | repeated pushes end after exactly the computed number, along one axis, flush with the obstacle |
| SpawnSystem.EnemySpawner.Tick | ecs/src/systems/SpawnSystem.cpp:58-248 | one step of the scheduler |
| SpawnSystem.EnemySpawner.SpawnEnemies | ecs/src/systems/SpawnSystem.cpp:74-233 | the inner loop over the enemies due, which terminates |
| SpawnSystem.EnemySpawner.AnnounceBoss | ecs/src/systems/SpawnSystem.cpp:75-99 | raises the warning before a boss that heads the first wave |
| SpawnSystem.EnemySpawner.CountDownWarning | ecs/src/systems/SpawnSystem.cpp:101-109 | counts the warning down and ends it |
| SpawnSystem.EnemySpawner.BossDefeated | ecs/src/systems/CollisionSystem.cpp:225-236 | Boss_1's death moves to the next level's start |
| WaveSchedule.SpawnDueKeeps | ecs/src/systems/SpawnSystem.cpp:74-233 | within a frame: the spawned list is the prefix up to the index, the warning stands before its boss with time left, the boss waits four seconds |
| WaveSchedule.StepKeepsGood | ecs/src/systems/SpawnSystem.cpp:58-248 | a frame or a boss's death keeps the schedule in order |
| WaveSchedule.RunIsGood | ecs/src/systems/SpawnSystem.cpp:58-248 | in every run the indices are in range and a warning implies wave 0, enemy 0, a boss and a timer in (0, 4] |
| WaveSchedule.WavesAreComplete | ecs/src/systems/SpawnSystem.cpp:111-247 | a wave left by the scheduler had each enemy spawned once in order and its boss announced four seconds ahead |
| WaveSchedule.LateEnemyIsMissed | ecs/src/systems/SpawnSystem.cpp:235-238 | an enemy due later than its wave is sure to last is missed in a run |
| WaveSchedule.WavesAreCompleteExactly | ecs/src/systems/SpawnSystem.cpp:111-247 | no run leaves a wave incomplete if and only if every enemy is due by then |
| WaveSchedule.LateBossIsAnnouncedTwice | ecs/src/systems/SpawnSystem.cpp:83-109 | a boss due after its warning, in a wave that lasts longer, is announced twice in a run |
| WaveSchedule.BossesAreAnnouncedOnceExactly | ecs/src/systems/SpawnSystem.cpp:83-109 | no run announces a boss twice in a stay if and only if there is no such boss |
| LevelOrder.FrameMoves | ecs/src/systems/SpawnSystem.cpp:58-248 | where a frame leaves the schedule and its timer, in each case |
| LevelOrder.EnemiesAppearOnTime | ecs/src/systems/SpawnSystem.cpp:111-232 | in every run only due enemies have appeared, and without a warning no due one is missing |
| LevelOrder.WarningsPrecedeBosses | ecs/src/systems/SpawnSystem.cpp:75-109 | in every run a warning shows only before a boss heading a first wave, with up to 4 seconds to go, and such a boss had one 4 seconds before |
| LevelOrder.DeparturesInOrder | ecs/src/systems/SpawnSystem.cpp:235-247 | between deaths of Boss_1 the waves are left in the order of the levels |
| LevelOrder.BossMoves | ecs/src/systems/CollisionSystem.cpp:225-233 | a death of Boss_1 moves to the next level's first wave, afresh |
| LevelDefs.LevelsFit | shared/utils/LevelDefs.hpp:24-143 | in the shipped levels every enemy is due before its wave ends |
| LevelDefs.ShippedWavesAreComplete | shared/utils/LevelDefs.hpp:24-143 | so no run of them leaves a wave incomplete, and both bosses are announced exactly once, four seconds ahead |
| Bytes.ValueOfLittleEndian | shared/net/Serializer.hpp:19-23 | a number written in its width is read back |
| Bytes.LittleEndianOfValue | shared/net/Deserializer.hpp:17-26 | and the bytes read are the ones that number writes |
| Bytes.DecodeEncoded | shared/net/Deserializer.hpp:17-53 | a field list written by its layout is read back, whatever follows |
| Bytes.DecodeExactly | shared/net/Deserializer.hpp:17-53 | reading succeeds exactly on enough bytes, and writing what was read gives them back |
| MessageData.LayoutsAgree | shared/net/MessageSerializer.hpp:14-386 | for each kind, what is read has the fields and widths of what is written |
| MessageData.FieldsFit | shared/net/MessageSerializer.hpp:14-386 | every message's fields fit its layout |
| MessageData.FromFieldsOfMessage | shared/net/MessageSerializer.hpp:14-386 | for each kind, a message is determined by its fields |
| MessageData.FieldsOfFromFields | shared/net/MessageSerializer.hpp:14-386 | and any fields that fit make a message with just those |
| Packet.Serialize | shared/net/Packet.hpp:25-34 | header and body bytes in order |
| Packet.Deserialize | shared/net/Packet.hpp:36-45 | header and body read back; short data gives the empty packet |
| Packet.PacketRoundTrip | shared/net/Packet.hpp:25-45 | every packet comes back from its bytes |
| Packet.BytesOfPacket | shared/net/Packet.hpp:25-45 | bytes with a header come back from their packet |
| Packet.ValidatorIsExact | shared/net/ProtocolAdapter.hpp:25-61 | accepts exactly the byte strings of packets with type 1 to 30 and a size field equal to the body's length, at most 1020 |
| MessageSerializer.Serializer.WriteCharacters | shared/net/MessageSerializer.hpp:62-64 | the byte loop appends the characters |
| MessageSerializer.Serializer.WriteFields | shared/net/MessageSerializer.hpp:14-386 | appends a message's fields in order |
| MessageSerializer.Serializer.WriteString | shared/net/Serializer.hpp:34-38 | appends the 32-bit length and the characters |
| MessageSerializer.Deserializer.ReadBytes | shared/net/Deserializer.hpp:17-43 | takes the next bytes, or fails and leaves the offset |
| MessageSerializer.Deserializer.ReadString | shared/net/Deserializer.hpp:45-53 | takes a string by its length, or fails, possibly after the length |
| MessageSerializer.Deserializer.ReadFields | shared/net/MessageSerializer.hpp:14-386 | reads a message's fields in order, failing at the first that lacks data |
| MessageSerializer.SerializeMessage | shared/net/MessageSerializer.hpp:14-386 | the packet of a message |
| MessageSerializer.DeserializeMessage | shared/net/MessageSerializer.hpp:14-386 | the message at the front of a packet's body, and how much of it was consumed |
| MessageSerializer.MessageRoundTrip | shared/net/MessageSerializer.hpp:14-386 | every message of every kind is read back, with the layout's width |
| MessageSerializer.ParseSucceedsExactly | shared/net/Deserializer.hpp:17-43 | deserializing succeeds exactly on bodies at least as long as the layout, and re-serializing gives the bytes read |
| MessageSerializer.LayoutWidths | shared/net/MessageSerializer.hpp:58-66 | a join takes 25 bytes, and no layout more than 149 |
| MessageSerializer.WireRoundTrip | shared/net/ProtocolAdapter.hpp:25-61 | every message's datagram is accepted, names its kind and gives it back |
| WireBytes.NumberBytes | shared/net/Serializer.hpp:19-23 | a number's bytes in each width, the lowest first |
| WireBytes.BodyIsItsMembers | shared/net/MessageSerializer.hpp:14-386 | for each kind the body is the message's members in order |
| WireBytes.DatagramIsItsMembers | shared/net/Packet.hpp:21-34 | the datagram is the operation code, the length and the body |
| WireBytes.PacketFromBytes | shared/net/Packet.hpp:36-45 | type, size and body of the packet read from bytes; the empty packet from fewer than four |
| WireBytes.ParseTakesItsMembers | shared/net/MessageSerializer.hpp:14-386 | for each kind which bytes of a body make which member, and how many it takes |
| MessageSerializer.StringComesBack | shared/net/Serializer.hpp:34-38 | a length-prefixed string comes back exactly when its length fits 32 bits |
| MessageSerializer.FillBuffer | shared/net/MessageData.hpp:55-58 | clearing and copying up to one less than the buffer gives the name's start, zero-filled |
| MessageSerializer.NameComesBack | shared/net/MessageData.hpp:55-100 | a name comes back as its first size - 1 characters up to a NUL, and as just those exactly when there is no NUL |
| MessageSerializer.PlayerNameComesBack | shared/net/MessageData.hpp:55-100 | sixteen characters of a player name survive the wire |
| MessageSerializer.RoomNameComesBack | shared/net/MessageData.hpp:250-285 | thirty-one of a room name |
| MessageSerializer.ChatTextComesBack | shared/net/MessageData.hpp:95-100 | 127 of a chat line |
| ScoreData.ScoreboardData.AddSoloScore | shared/ScoreData.cpp:6-8 | one add to the solo list, the other list untouched |
| ScoreData.ScoreboardData.AddMultiScore | shared/ScoreData.cpp:10-12 | one add to the other |
| ScoreData.ScoreboardData.AddAndSort | shared/ScoreData.cpp:14-25 | append, sort by descending score in some order of ties, keep ten |
| ScoreData.AddKeepsTop | shared/ScoreData.cpp:14-25 | one add to the ten best of some entries gives the ten best of those and the new one |
| ScoreData.StreamingTopTen | shared/ScoreData.cpp:14-25 | after any run of adds, with any tie orders, the list is the ten best of everything ever added, in descending order; nothing left out is better |
| ScoreData.TopScoresUnique | shared/ScoreData.cpp:14-25 | tie orders cannot change the scores shown |
| ScoreboardText.ScoreboardManager.LoadFrom | client/src/ScoreboardManager.cpp:31-64 | the line loop with its current section |
| ScoreboardText.ScoreboardManager.SaveTo | client/src/ScoreboardManager.cpp:81-92 | the text of both lists |
| ScoreboardText.ScanDecimal | client/src/ScoreboardManager.cpp:56-56 | a printed number in range is scanned back |
| ScoreboardText.ParseWritten | client/src/ScoreboardManager.cpp:50-63 | an entry line with a clean name is parsed back |
| ScoreboardText.ReadWritten | client/src/ScoreboardManager.cpp:37-64 | a block of entry lines is appended to the current section |
| ScoreboardText.LoadedNamesAreClean | client/src/ScoreboardManager.cpp:37-64 | no text makes load deliver a name that is not clean |
| ScoreboardText.LoadRestoresSave | client/src/ScoreboardManager.cpp:34-92 | load of what save wrote restores both lists if and only if every name is clean |
| ScoreboardLines.SavedText | client/src/ScoreboardManager.cpp:81-92 | the text of the file, line by line |
| ScoreboardLines.NothingFromOtherLines | client/src/ScoreboardManager.cpp:37-63 | comments, empty lines, lines without a colon and lines before any heading give no entry |
| ScoreboardLines.SectionsAreKept | client/src/ScoreboardManager.cpp:42-62 | what stands under a heading goes to that list |

## Where code and documentation disagree

documentation/RTYPE_BINARY_PROTOCOL.md:117-122 gives a join of 4 bytes; the code writes and reads
25 (shared/net/MessageSerializer.hpp:58-78). The model follows the code (`LayoutWidths`).

## Left out

- Floating point: coordinates and times are exact reals in the rules and opaque 32-bit patterns on the wire; rounding of positions and of the wave and shield timers is not modelled.
- Sockets, threads as such, clocks, logging, files, rendering, audio, menus: only the order of steps and the characters or bytes that pass.
- Server shutdown and freedom from deadlock: locks are taken in different orders in server/src/GameSession.cpp:203-204 and 354-355, so only safety is claimed.
- Registry and rules are joined by meaning: `GameSession.dfy` and `Combat.dfy` take the registry as a map, which `Registry.dfy` shows the sparse arrays to refine; C++ references held across vector growth are not modelled, components are read again.
- Other systems (movement, weapons, mobs, boundaries, scores, game-over cleanup) appear only as steps that create, move or destroy entities at any time; their tuning constants, sprite and tag tables are not modelled.
- `is_connected` is set when a client is inserted and never cleared; the model keeps the field but has no step that clears it.
- A client's copy is the fold of the messages sent since its insertion, in order and without loss; the client program's own registry, which prunes and does not reject repeats, is not modelled.
- Room names and the room list, player names, chat, lobby updates, score and game-state messages: they do not affect the properties above.
- A session that stops on its own is one step (`EndLoop`), whatever its empty timer says.
- ReplicaIsExact: assumes that fewer than 10000 players have joined the session and that its dynamic counter has not wrapped; the obstacle counter may stand anywhere.
- The wrap of the shared obstacle counter itself, after some four thousand million obstacles.
- LossesAreSpaced: counts the time step of the first loss, because its shield already runs down in that update; without it the bound fails, as `LongStepLeavesNoShield` shows.
- ReachableBounds: assumes what the server's own entity creation does: players start with at least one life and with full, positive hit points, and enemies with positive ones.
- Score events: one component, overwritten by a second kill in the same tick, so no law from kills to score is claimed.
- The spectator branch of the lives system: nothing on the server adds the component it asks for.
- The collision branch of companions with enemies is modelled in `HandleCollision`, but the test before it never lets that pair through.
- Hit flashes, audio events and drawing components; the entities made only to carry them are kept, as they take ids.
- The random pod drop is a parameter: any set of lucky enemies.
- At a boss warning the scheduler also puts all players at one place; a change of position like any other here.
- Difficulty multipliers on enemy speed, fire rate and hit points: hit points are any positive number.
- The writes and reads of a message's fields are one loop over its layout, where the source has straight-line calls for each kind.
- Message buffers filled other than by the name constructors may lack a final NUL; reading such a name as a C string is not modelled.
- `std::sort` is stood for by an insertion sort, and nothing but its promise (`SortOutcome`) is used.
- Code that is never called: `broadcast_projectile_spawns`, `send_existing_entities_to_client`, `Instance`.
