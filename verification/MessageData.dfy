/** The messages of the protocol and the fixed layout of each (shared/net/Protocol.hpp,
    shared/net/MessageData.hpp). Floating-point fields are their 32-bit patterns. */
module MessageData {
  import opened Common
  import opened Bytes

  type f32 = u32
  type name17 = s: seq<u8> | |s| == 17 witness seq(17, i => 0)
  type name32 = s: seq<u8> | |s| == 32 witness seq(32, i => 0)
  type text128 = s: seq<u8> | |s| == 128 witness seq(128, i => 0)

  datatype Kind =
    | PlayerJoinKind | PlayerMoveKind | PlayerShootKind | PlayerLeaveKind | EntitySpawnKind | EntityMoveKind
    | EntityDestroyKind | GameStartKind | GameStateKind | PingKind | PongKind | MapResizeKind | PlayerNameKind
    | ChatMessageKind | StageClearedKind | ListRoomsKind | RoomInfoKind | CreateRoomKind | JoinRoomKind
    | LobbyUpdateKind

  datatype Message =
    | PlayerJoin(session: u32, player: u32, name: name17)
    | PlayerMove(player: u32, x: f32, y: f32, vx: f32, vy: f32)
    | PlayerShoot(player: u32, weapon: u16, x: f32, y: f32, dx: f32, dy: f32)
    | PlayerLeave(player: u32)
    | EntitySpawn(entity: u32, entityType: u16, subType: u16, x: f32, y: f32, vx: f32, vy: f32)
    | EntityMove(entity: u32, x: f32, y: f32, vx: f32, vy: f32, flags: u8)
    | EntityDestroy(entity: u32, reason: u8)
    | GameStart(session: u32, level: u16, players: u8, difficulty: u8, timestamp32: u32)
    | GameState(time: u32, wave: u16, enemies: u16, score: u32, state: u8, lives: u8, pad0: u8, pad1: u8)
    | Ping(timestamp: u64)
    | Pong(timestamp: u64)
    | MapResize(width: f32, height: f32)
    | PlayerName(player: u32, name: name17)
    | ChatMessage(player: u32, name: name17, text: text128)
    | StageCleared(stage: u8)
    | ListRooms(dummy: u8)
    | RoomInfo(session: u32, count: u8, maxPlayers: u8, status: u8, room: name32)
    | CreateRoom(room: name32, maxPlayers: u8, mode: u8, difficulty: u8, friendlyFire: u8, lives: u8)
    | JoinRoom(session: u32)
    | LobbyUpdate(playerCount: i8, yourPlayer: i8)

  /** The operation code on the wire. */
  function Code(k: Kind): u16 {
    match k
    case PlayerJoinKind => 1
    case PlayerMoveKind => 2
    case PlayerShootKind => 3
    case PlayerLeaveKind => 4
    case EntitySpawnKind => 5
    case EntityMoveKind => 6
    case EntityDestroyKind => 7
    case GameStartKind => 8
    case GameStateKind => 9
    case PingKind => 10
    case PongKind => 11
    case MapResizeKind => 12
    case PlayerNameKind => 13
    case ChatMessageKind => 14
    case StageClearedKind => 15
    case ListRoomsKind => 16
    case RoomInfoKind => 17
    case CreateRoomKind => 18
    case JoinRoomKind => 19
    case LobbyUpdateKind => 20
  }

  function KindOf(m: Message): Kind {
    match m
    case PlayerJoin(_, _, _) => PlayerJoinKind
    case PlayerMove(_, _, _, _, _) => PlayerMoveKind
    case PlayerShoot(_, _, _, _, _, _) => PlayerShootKind
    case PlayerLeave(_) => PlayerLeaveKind
    case EntitySpawn(_, _, _, _, _, _, _) => EntitySpawnKind
    case EntityMove(_, _, _, _, _, _) => EntityMoveKind
    case EntityDestroy(_, _) => EntityDestroyKind
    case GameStart(_, _, _, _, _) => GameStartKind
    case GameState(_, _, _, _, _, _, _, _) => GameStateKind
    case Ping(_) => PingKind
    case Pong(_) => PongKind
    case MapResize(_, _) => MapResizeKind
    case PlayerName(_, _) => PlayerNameKind
    case ChatMessage(_, _, _) => ChatMessageKind
    case StageCleared(_) => StageClearedKind
    case ListRooms(_) => ListRoomsKind
    case RoomInfo(_, _, _, _, _) => RoomInfoKind
    case CreateRoom(_, _, _, _, _, _) => CreateRoomKind
    case JoinRoom(_) => JoinRoomKind
    case LobbyUpdate(_, _) => LobbyUpdateKind
  }

  const B1 := Number(1)
  const B2 := Number(2)
  const B4 := Number(4)
  const B8 := Number(8)

  /** The fields each `serialize_*` writes, in order, with the widths of the message's members. */
  function Layout(k: Kind): seq<Shape> {
    match k
    case PlayerJoinKind => [B4, B4, Characters(17)]
    case PlayerMoveKind => [B4, B4, B4, B4, B4]
    case PlayerShootKind => [B4, B2, B4, B4, B4, B4]
    case PlayerLeaveKind => [B4]
    case EntitySpawnKind => [B4, B2, B2, B4, B4, B4, B4]
    case EntityMoveKind => [B4, B4, B4, B4, B4, B1]
    case EntityDestroyKind => [B4, B1]
    case GameStartKind => [B4, B2, B1, B1, B4]
    case GameStateKind => [B4, B2, B2, B4, B1, B1, B1, B1]
    case PingKind => [B8]
    case PongKind => [B8]
    case MapResizeKind => [B4, B4]
    case PlayerNameKind => [B4, Characters(17)]
    case ChatMessageKind => [B4, Characters(17), Characters(128)]
    case StageClearedKind => [B1]
    case ListRoomsKind => [B1]
    case RoomInfoKind => [B4, B1, B1, B1, Characters(32)]
    case CreateRoomKind => [Characters(32), B1, B1, B1, B1, B1]
    case JoinRoomKind => [B4]
    case LobbyUpdateKind => [B1, B1]
  }

  const READ_U8 := Number(1)
  const READ_I8 := Number(1)
  const READ_U16 := Number(2)
  const READ_U32 := Number(4)
  const READ_FLOAT := Number(4)
  const READ_U64 := Number(8)

  /** The reads of each `deserialize_*`, in order; a loop over single characters is one run. */
  function ReadLayout(k: Kind): seq<Shape> {
    match k
    case PlayerMoveKind => [READ_U32, READ_FLOAT, READ_FLOAT, READ_FLOAT, READ_FLOAT]
    case PlayerShootKind => [READ_U32, READ_U16, READ_FLOAT, READ_FLOAT, READ_FLOAT, READ_FLOAT]
    case PlayerJoinKind => [READ_U32, READ_U32, Characters(17)]
    case PlayerLeaveKind => [READ_U32]
    case PlayerNameKind => [READ_U32, Characters(17)]
    case EntitySpawnKind => [READ_U32, READ_U16, READ_U16, READ_FLOAT, READ_FLOAT, READ_FLOAT, READ_FLOAT]
    case EntityMoveKind => [READ_U32, READ_FLOAT, READ_FLOAT, READ_FLOAT, READ_FLOAT, READ_U8]
    case EntityDestroyKind => [READ_U32, READ_U8]
    case GameStartKind => [READ_U32, READ_U16, READ_U8, READ_U8, READ_U32]
    case GameStateKind => [READ_U32, READ_U16, READ_U16, READ_U32, READ_U8, READ_U8, READ_U8, READ_U8]
    case PingKind => [READ_U64]
    case PongKind => [READ_U64]
    case MapResizeKind => [READ_FLOAT, READ_FLOAT]
    case ChatMessageKind => [READ_U32, Characters(17), Characters(128)]
    case StageClearedKind => [READ_U8]
    case ListRoomsKind => [READ_U8]
    case RoomInfoKind => [READ_U32, READ_U8, READ_U8, READ_U8, Characters(32)]
    case CreateRoomKind => [Characters(32), READ_U8, READ_U8, READ_U8, READ_U8, READ_U8]
    case JoinRoomKind => [READ_U32]
    case LobbyUpdateKind => [READ_I8, READ_I8]
  }

  /** What is written for a kind is what is read for it. */
  lemma LayoutsAgree(k: Kind)
    ensures ReadLayout(k) == Layout(k)
  {
  }

  /** A signed byte travels as its two's complement. */
  function ToByte(n: i8): u8 {
    if n < 0 then n + 0x100 else n
  }

  function FromByte(b: u8): i8 {
    if b < 0x80 then b else b - 0x100
  }

  function Fields(m: Message): (fs: seq<Field>) {
    match m
    case PlayerJoin(s, p, n) => [Num(s), Num(p), Chars(n)]
    case PlayerMove(p, x, y, vx, vy) => [Num(p), Num(x), Num(y), Num(vx), Num(vy)]
    case PlayerShoot(p, w, x, y, dx, dy) => [Num(p), Num(w), Num(x), Num(y), Num(dx), Num(dy)]
    case PlayerLeave(p) => [Num(p)]
    case EntitySpawn(e, t, st, x, y, vx, vy) => [Num(e), Num(t), Num(st), Num(x), Num(y), Num(vx), Num(vy)]
    case EntityMove(e, x, y, vx, vy, f) => [Num(e), Num(x), Num(y), Num(vx), Num(vy), Num(f)]
    case EntityDestroy(e, r) => [Num(e), Num(r)]
    case GameStart(s, l, p, d, t) => [Num(s), Num(l), Num(p), Num(d), Num(t)]
    case GameState(t, w, e, s, st, l, p0, p1) =>
      [Num(t), Num(w), Num(e), Num(s), Num(st), Num(l), Num(p0), Num(p1)]
    case Ping(t) => [Num(t)]
    case Pong(t) => [Num(t)]
    case MapResize(w, h) => [Num(w), Num(h)]
    case PlayerName(p, n) => [Num(p), Chars(n)]
    case ChatMessage(p, n, t) => [Num(p), Chars(n), Chars(t)]
    case StageCleared(s) => [Num(s)]
    case ListRooms(d) => [Num(d)]
    case RoomInfo(s, c, mp, st, r) => [Num(s), Num(c), Num(mp), Num(st), Chars(r)]
    case CreateRoom(r, mp, md, d, f, l) => [Chars(r), Num(mp), Num(md), Num(d), Num(f), Num(l)]
    case JoinRoom(s) => [Num(s)]
    case LobbyUpdate(c, y) => [Num(ToByte(c)), Num(ToByte(y))]
  }

  /** The message made from its fields. */
  function FromFields(k: Kind, fs: seq<Field>): (m: Message)
    requires AllFit(fs, ReadLayout(k))
  {
    Widths();
    match k
    case PlayerJoinKind => PlayerJoin(fs[0].n, fs[1].n, fs[2].chars)
    case PlayerMoveKind => PlayerMove(fs[0].n, fs[1].n, fs[2].n, fs[3].n, fs[4].n)
    case PlayerShootKind => PlayerShoot(fs[0].n, fs[1].n, fs[2].n, fs[3].n, fs[4].n, fs[5].n)
    case PlayerLeaveKind => PlayerLeave(fs[0].n)
    case EntitySpawnKind => EntitySpawn(fs[0].n, fs[1].n, fs[2].n, fs[3].n, fs[4].n, fs[5].n, fs[6].n)
    case EntityMoveKind => EntityMove(fs[0].n, fs[1].n, fs[2].n, fs[3].n, fs[4].n, fs[5].n)
    case EntityDestroyKind => EntityDestroy(fs[0].n, fs[1].n)
    case GameStartKind => GameStart(fs[0].n, fs[1].n, fs[2].n, fs[3].n, fs[4].n)
    case GameStateKind => GameState(fs[0].n, fs[1].n, fs[2].n, fs[3].n, fs[4].n, fs[5].n, fs[6].n, fs[7].n)
    case PingKind => Ping(fs[0].n)
    case PongKind => Pong(fs[0].n)
    case MapResizeKind => MapResize(fs[0].n, fs[1].n)
    case PlayerNameKind => PlayerName(fs[0].n, fs[1].chars)
    case ChatMessageKind => ChatMessage(fs[0].n, fs[1].chars, fs[2].chars)
    case StageClearedKind => StageCleared(fs[0].n)
    case ListRoomsKind => ListRooms(fs[0].n)
    case RoomInfoKind => RoomInfo(fs[0].n, fs[1].n, fs[2].n, fs[3].n, fs[4].chars)
    case CreateRoomKind => CreateRoom(fs[0].chars, fs[1].n, fs[2].n, fs[3].n, fs[4].n, fs[5].n)
    case JoinRoomKind => JoinRoom(fs[0].n)
    case LobbyUpdateKind => LobbyUpdate(FromByte(fs[0].n), FromByte(fs[1].n))
  }

  // The cases are split in two halves.

  predicate FirstHalf(k: Kind) {
    Code(k) <= 8
  }

  lemma FirstFieldsFit(m: Message)
    requires FirstHalf(KindOf(m))
    ensures AllFit(Fields(m), Layout(KindOf(m)))
  {
    Widths();
  }

  lemma LastFieldsFit(m: Message)
    requires !FirstHalf(KindOf(m))
    ensures AllFit(Fields(m), Layout(KindOf(m)))
  {
    Widths();
  }

  lemma FieldsFit(m: Message)
    ensures AllFit(Fields(m), Layout(KindOf(m)))
  {
    if FirstHalf(KindOf(m)) {
      FirstFieldsFit(m);
    } else {
      LastFieldsFit(m);
    }
  }

  lemma FirstMessageBack(m: Message)
    requires FirstHalf(KindOf(m))
    ensures AllFit(Fields(m), ReadLayout(KindOf(m))) && FromFields(KindOf(m), Fields(m)) == m
  {
    FieldsFit(m);
    LayoutsAgree(KindOf(m));
  }

  lemma LastMessageBack(m: Message)
    requires !FirstHalf(KindOf(m))
    ensures AllFit(Fields(m), ReadLayout(KindOf(m))) && FromFields(KindOf(m), Fields(m)) == m
  {
    FieldsFit(m);
    LayoutsAgree(KindOf(m));
  }

  /** Messages and the field lists of their layout determine each other. */
  lemma FromFieldsOfMessage(m: Message)
    ensures AllFit(Fields(m), ReadLayout(KindOf(m))) && FromFields(KindOf(m), Fields(m)) == m
  {
    if FirstHalf(KindOf(m)) {
      FirstMessageBack(m);
    } else {
      LastMessageBack(m);
    }
  }

  lemma FirstFieldsBack(k: Kind, fs: seq<Field>)
    requires AllFit(fs, ReadLayout(k)) && FirstHalf(k)
    ensures KindOf(FromFields(k, fs)) == k && Fields(FromFields(k, fs)) == fs
  {
    Widths();
  }

  lemma LastFieldsBack(k: Kind, fs: seq<Field>)
    requires AllFit(fs, ReadLayout(k)) && !FirstHalf(k)
    ensures KindOf(FromFields(k, fs)) == k && Fields(FromFields(k, fs)) == fs
  {
    Widths();
  }

  lemma FieldsOfFromFields(k: Kind, fs: seq<Field>)
    requires AllFit(fs, ReadLayout(k))
    ensures KindOf(FromFields(k, fs)) == k && Fields(FromFields(k, fs)) == fs
  {
    if FirstHalf(k) {
      FirstFieldsBack(k, fs);
    } else {
      LastFieldsBack(k, fs);
    }
  }
}
