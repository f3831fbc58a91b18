/** The bytes of every message, member by member: what each `serialize_*` puts on the wire and in
    what order, and from which bytes each `deserialize_*` takes its members
    (shared/net/MessageSerializer.hpp); the operation code and the size in front of them
    (shared/net/Protocol.hpp, shared/net/Packet.hpp). */
module WireBytes {
  import opened Common
  import opened Bytes
  import opened MessageData
  import opened MessageSerializer
  import Packet

  /** Byte strings one after the other. */
  function Cat(parts: seq<seq<u8>>): seq<u8>
    decreases |parts|
  {
    if parts == [] then [] else parts[0] + Cat(parts[1..])
  }

  /** A number's bytes in each width, the lowest first. */
  lemma NumberBytes(n: nat)
    ensures LittleEndian(n, 1) == [n % 0x100]
    ensures LittleEndian(n, 2) == [n % 0x100, n / 0x100 % 0x100]
    ensures LittleEndian(n, 4) == [n % 0x100, n / 0x100 % 0x100, n / 0x1_0000 % 0x100, n / 0x100_0000 % 0x100]
    ensures LittleEndian(n, 8) == LittleEndian(n, 4) + LittleEndian(n / 0x1_0000_0000, 4)
  {
    LowBytes(n);
    LowBytes(n / 0x1_0000_0000);
    assert n / 0x100 / 0x100 / 0x100 / 0x100 == n / 0x1_0000_0000;
    HighBytes(n, n / 0x100, n / 0x100 / 0x100, n / 0x100 / 0x100 / 0x100, n / 0x1_0000_0000);
  }

  lemma LowBytes(n: nat)
    ensures LittleEndian(n, 1) == [n % 0x100]
    ensures LittleEndian(n, 2) == [n % 0x100, n / 0x100 % 0x100]
    ensures LittleEndian(n, 4) == [n % 0x100, n / 0x100 % 0x100, n / 0x1_0000 % 0x100, n / 0x100_0000 % 0x100]
  {
    var a, b, c := n / 0x100, n / 0x1_0000, n / 0x100_0000;
    assert a / 0x100 == b && b / 0x100 == c;
    assert LittleEndian(c, 1) == [c % 0x100] + LittleEndian(c / 0x100, 0);
    assert LittleEndian(b, 2) == [b % 0x100] + LittleEndian(c, 1);
    assert LittleEndian(a, 1) == [a % 0x100] + LittleEndian(b, 0);
    assert LittleEndian(a, 3) == [a % 0x100] + LittleEndian(b, 2);
  }

  lemma HighBytes(n: nat, a: nat, b: nat, c: nat, d: nat)
    requires a == n / 0x100 && b == a / 0x100 && c == b / 0x100 && d == c / 0x100
    ensures LittleEndian(n, 8) == LittleEndian(n, 4) + LittleEndian(d, 4)
  {
    assert LittleEndian(c, 5) == [c % 0x100] + LittleEndian(d, 4);
    assert LittleEndian(b, 6) == [b % 0x100] + LittleEndian(c, 5);
    assert LittleEndian(a, 7) == [a % 0x100] + LittleEndian(b, 6);
    assert LittleEndian(n, 8) == [n % 0x100] + LittleEndian(a, 7);
    assert LittleEndian(c, 1) == [c % 0x100] + LittleEndian(d, 0);
    assert LittleEndian(b, 2) == [b % 0x100] + LittleEndian(c, 1);
    assert LittleEndian(a, 3) == [a % 0x100] + LittleEndian(b, 2);
    assert LittleEndian(n, 4) == [n % 0x100] + LittleEndian(a, 3);
  }

  // Writing.

  /** The members of each message as they go on the wire. */
  function Parts(m: Message): seq<seq<u8>> {
    match m
    case PlayerJoin(_, _, _) =>
      [LittleEndian(m.session, 4), LittleEndian(m.player, 4), m.name]
    case PlayerMove(_, _, _, _, _) =>
      [LittleEndian(m.player, 4), LittleEndian(m.x, 4), LittleEndian(m.y, 4), LittleEndian(m.vx, 4),
       LittleEndian(m.vy, 4)]
    case PlayerShoot(_, _, _, _, _, _) =>
      [LittleEndian(m.player, 4), LittleEndian(m.weapon, 2), LittleEndian(m.x, 4), LittleEndian(m.y, 4),
       LittleEndian(m.dx, 4), LittleEndian(m.dy, 4)]
    case PlayerLeave(_) =>
      [LittleEndian(m.player, 4)]
    case EntitySpawn(_, _, _, _, _, _, _) =>
      [LittleEndian(m.entity, 4), LittleEndian(m.entityType, 2), LittleEndian(m.subType, 2),
       LittleEndian(m.x, 4), LittleEndian(m.y, 4), LittleEndian(m.vx, 4), LittleEndian(m.vy, 4)]
    case EntityMove(_, _, _, _, _, _) =>
      [LittleEndian(m.entity, 4), LittleEndian(m.x, 4), LittleEndian(m.y, 4), LittleEndian(m.vx, 4),
       LittleEndian(m.vy, 4), LittleEndian(m.flags, 1)]
    case EntityDestroy(_, _) =>
      [LittleEndian(m.entity, 4), LittleEndian(m.reason, 1)]
    case GameStart(_, _, _, _, _) =>
      [LittleEndian(m.session, 4), LittleEndian(m.level, 2), LittleEndian(m.players, 1),
       LittleEndian(m.difficulty, 1), LittleEndian(m.timestamp32, 4)]
    case GameState(_, _, _, _, _, _, _, _) =>
      [LittleEndian(m.time, 4), LittleEndian(m.wave, 2), LittleEndian(m.enemies, 2), LittleEndian(m.score, 4),
       LittleEndian(m.state, 1), LittleEndian(m.lives, 1), LittleEndian(m.pad0, 1), LittleEndian(m.pad1, 1)]
    case Ping(_) =>
      [LittleEndian(m.timestamp, 8)]
    case Pong(_) =>
      [LittleEndian(m.timestamp, 8)]
    case MapResize(_, _) =>
      [LittleEndian(m.width, 4), LittleEndian(m.height, 4)]
    case PlayerName(_, _) =>
      [LittleEndian(m.player, 4), m.name]
    case ChatMessage(_, _, _) =>
      [LittleEndian(m.player, 4), m.name, m.text]
    case StageCleared(_) =>
      [LittleEndian(m.stage, 1)]
    case ListRooms(_) =>
      [LittleEndian(m.dummy, 1)]
    case RoomInfo(_, _, _, _, _) =>
      [LittleEndian(m.session, 4), LittleEndian(m.count, 1), LittleEndian(m.maxPlayers, 1),
       LittleEndian(m.status, 1), m.room]
    case CreateRoom(_, _, _, _, _, _) =>
      [m.room, LittleEndian(m.maxPlayers, 1), LittleEndian(m.mode, 1), LittleEndian(m.difficulty, 1),
       LittleEndian(m.friendlyFire, 1), LittleEndian(m.lives, 1)]
    case JoinRoom(_) =>
      [LittleEndian(m.session, 4)]
    case LobbyUpdate(_, _) =>
      [LittleEndian(m.playerCount % 0x100, 1), LittleEndian(m.yourPlayer % 0x100, 1)]
  }

  lemma {:induction false} EncodeIsCat(fs: seq<Field>, ss: seq<Shape>, parts: seq<seq<u8>>)
    requires AllFit(fs, ss) && |parts| == |fs|
    requires forall i :: 0 <= i < |fs| ==> parts[i] == EncodeField(fs[i], ss[i])
    ensures Encode(fs, ss) == Cat(parts)
    decreases |fs|
  {
    if fs != [] {
      EncodeIsCat(fs[1..], ss[1..], parts[1..]);
    }
  }

  predicate PartFits(m: Message, i: nat)
    requires AllFit(Fields(m), Layout(KindOf(m)))
  {
    i < |Fields(m)| && i < |Parts(m)| && Parts(m)[i] == EncodeField(Fields(m)[i], Layout(KindOf(m))[i])
  }

  predicate PartsMatch(m: Message) {
    && AllFit(Fields(m), Layout(KindOf(m))) && |Parts(m)| == |Fields(m)|
    && forall i :: 0 <= i < |Fields(m)| ==> PartFits(m, i)
  }

  lemma Parts1(m: Message)
    requires 1 <= Code(KindOf(m)) <= 3
    ensures PartsMatch(m)
  {
    FieldsFit(m);
    match m
    case PlayerJoin(_, _, _) => assert PartFits(m, 0) && PartFits(m, 1) && PartFits(m, 2);
    case PlayerMove(_, _, _, _, _) => assert PartFits(m, 0) && PartFits(m, 1) && PartFits(m, 2) && PartFits(m, 3) &&
      PartFits(m, 4);
    case PlayerShoot(_, _, _, _, _, _) => assert PartFits(m, 0) && PartFits(m, 1) && PartFits(m, 2) &&
      PartFits(m, 3) && PartFits(m, 4) && PartFits(m, 5);
  }

  lemma Parts2(m: Message)
    requires 4 <= Code(KindOf(m)) <= 6
    ensures PartsMatch(m)
  {
    FieldsFit(m);
    match m
    case PlayerLeave(_) => assert PartFits(m, 0);
    case EntitySpawn(_, _, _, _, _, _, _) => assert PartFits(m, 0) && PartFits(m, 1) && PartFits(m, 2) &&
      PartFits(m, 3) && PartFits(m, 4) && PartFits(m, 5) && PartFits(m, 6);
    case EntityMove(_, _, _, _, _, _) => assert PartFits(m, 0) && PartFits(m, 1) && PartFits(m, 2) && PartFits(m, 3) &&
      PartFits(m, 4) && PartFits(m, 5);
  }

  lemma Parts3(m: Message)
    requires 7 <= Code(KindOf(m)) <= 9
    ensures PartsMatch(m)
  {
    FieldsFit(m);
    match m
    case EntityDestroy(_, _) => assert PartFits(m, 0) && PartFits(m, 1);
    case GameStart(_, _, _, _, _) => assert PartFits(m, 0) && PartFits(m, 1) && PartFits(m, 2) && PartFits(m, 3) &&
      PartFits(m, 4);
    case GameState(_, _, _, _, _, _, _, _) => assert PartFits(m, 0) && PartFits(m, 1) && PartFits(m, 2) &&
      PartFits(m, 3) && PartFits(m, 4) && PartFits(m, 5) && PartFits(m, 6) && PartFits(m, 7);
  }

  lemma Parts4(m: Message)
    requires 10 <= Code(KindOf(m)) <= 15
    ensures PartsMatch(m)
  {
    FieldsFit(m);
    match m
    case Ping(_) => assert PartFits(m, 0);
    case Pong(_) => assert PartFits(m, 0);
    case MapResize(_, _) => assert PartFits(m, 0) && PartFits(m, 1);
    case PlayerName(_, _) => assert PartFits(m, 0) && PartFits(m, 1);
    case ChatMessage(_, _, _) => assert PartFits(m, 0) && PartFits(m, 1) && PartFits(m, 2);
    case StageCleared(_) => assert PartFits(m, 0);
  }

  lemma Parts5(m: Message)
    requires 16 <= Code(KindOf(m)) <= 20
    ensures PartsMatch(m)
  {
    FieldsFit(m);
    match m
    case ListRooms(_) => assert PartFits(m, 0);
    case RoomInfo(_, _, _, _, _) => assert PartFits(m, 0) && PartFits(m, 1) && PartFits(m, 2) && PartFits(m, 3) &&
      PartFits(m, 4);
    case CreateRoom(_, _, _, _, _, _) => assert PartFits(m, 0) && PartFits(m, 1) && PartFits(m, 2) && PartFits(m, 3) &&
      PartFits(m, 4) && PartFits(m, 5);
    case JoinRoom(_) => assert PartFits(m, 0);
    case LobbyUpdate(_, _) => assert PartFits(m, 0) && PartFits(m, 1);
  }

  lemma AllParts(m: Message)
    ensures PartsMatch(m)
  {
    var c := Code(KindOf(m));
    if c <= 3 {
      Parts1(m);
    } else if c <= 6 {
      Parts2(m);
    } else if c <= 9 {
      Parts3(m);
    } else if c <= 15 {
      Parts4(m);
    } else {
      Parts5(m);
    }
  }

  lemma PartsAreEncoded(fs: seq<Field>, ss: seq<Shape>, parts: seq<seq<u8>>, m: Message)
    requires PartsMatch(m) && fs == Fields(m) && ss == Layout(KindOf(m)) && parts == Parts(m)
    ensures Encode(fs, ss) == Cat(parts)
  {
    forall i | 0 <= i < |fs|
      ensures parts[i] == EncodeField(fs[i], ss[i])
    {
      assert PartFits(m, i);
    }
    EncodeIsCat(fs, ss, parts);
  }

  /** The body of every message: its members one after the other, numbers with their lowest byte
      first. */
  lemma BodyIsItsMembers(m: Message)
    ensures Body(m) == Cat(Parts(m))
  {
    AllParts(m);
    PartsAreEncoded(Fields(m), Layout(KindOf(m)), Parts(m), m);
  }

  /** The operation code of each kind. */
  function Opcode(k: Kind): u8 {
    match k
    case PlayerJoinKind => 1
    case PlayerMoveKind => 2
    case PlayerShootKind => 3
    case PlayerLeaveKind => 4
    case EntitySpawnKind => 5
    case EntityMoveKind => 6
    case EntityDestroyKind => 7
    case GameStartKind => 8
    case GameStateKind => 9
    case PingKind => 10
    case PongKind => 11
    case MapResizeKind => 12
    case PlayerNameKind => 13
    case ChatMessageKind => 14
    case StageClearedKind => 15
    case ListRoomsKind => 16
    case RoomInfoKind => 17
    case CreateRoomKind => 18
    case JoinRoomKind => 19
    case LobbyUpdateKind => 20
  }

  lemma OpcodeIsCode(k: Kind)
    ensures Code(k) == Opcode(k)
  {
  }

  lemma ShortHeader(code: u8, body: seq<u8>)
    requires |body| < 0x100
    ensures Packet.ToBytes(Packet.Make(code, body)) == [code, 0, |body|, 0] + body
  {
    NumberBytes(code);
    NumberBytes(|body|);
    assert LittleEndian(code, 2) == [code, 0] && LittleEndian(|body|, 2) == [|body|, 0];
  }

  /** The datagram of every message: its operation code and its body's length in two bytes each,
      then its members. */
  lemma DatagramIsItsMembers(m: Message)
    ensures var body := Cat(Parts(m));
      && |body| <= 149
      && Packet.ToBytes(Packet.Make(Code(KindOf(m)), Body(m))) == [Opcode(KindOf(m)), 0, |body|, 0] + body
  {
    BodyIsItsMembers(m);
    LayoutWidths(KindOf(m));
    MessageRoundTrip(m, []);
    OpcodeIsCode(KindOf(m));
    ShortHeader(Code(KindOf(m)), Body(m));
  }

  // Reading.

  /** A packet read from bytes: type, size and body; from fewer than four bytes the empty one. */
  lemma PacketFromBytes(data: seq<u8>)
    ensures |data| < 4 ==> Packet.FromBytes(data) == Packet.Packet(0, 0, [])
    ensures |data| >= 4 ==>
      var p := Packet.FromBytes(data);
      && p.messageType == data[0] as int + 0x100 * data[1] as int
      && p.payloadSize == data[2] as int + 0x100 * data[3] as int
      && p.body == data[4..]
  {
    if |data| >= 4 {
      TwoByteValue(data[..2]);
      TwoByteValue(data[2..4]);
    }
  }

  lemma TwoByteValue(b: seq<u8>)
    requires |b| == 2
    ensures Value(b) == b[0] as int + 0x100 * b[1] as int
  {
    assert b[1..][1..] == [] && Value(b[1..]) == b[1];
  }

  function U8At(b: seq<u8>, i: nat): (n: u8)
    requires i + 1 <= |b|
    ensures n == Value(b[i..i + 1]) && LittleEndian(n, 1) == b[i..i + 1]
  {
    Widths();
    LittleEndianOfValue(b[i..i + 1]);
    Value(b[i..i + 1])
  }

  function U16At(b: seq<u8>, i: nat): (n: u16)
    requires i + 2 <= |b|
    ensures n == Value(b[i..i + 2]) && LittleEndian(n, 2) == b[i..i + 2]
  {
    Widths();
    LittleEndianOfValue(b[i..i + 2]);
    Value(b[i..i + 2])
  }

  function U32At(b: seq<u8>, i: nat): (n: u32)
    requires i + 4 <= |b|
    ensures n == Value(b[i..i + 4]) && LittleEndian(n, 4) == b[i..i + 4]
  {
    Widths();
    LittleEndianOfValue(b[i..i + 4]);
    Value(b[i..i + 4])
  }

  function U64At(b: seq<u8>, i: nat): (n: u64)
    requires i + 8 <= |b|
    ensures n == Value(b[i..i + 8]) && LittleEndian(n, 8) == b[i..i + 8]
  {
    Widths();
    LittleEndianOfValue(b[i..i + 8]);
    Value(b[i..i + 8])
  }

  function I8At(b: seq<u8>, i: nat): (n: i8)
    requires i < |b|
    ensures n % 0x100 == b[i] && LittleEndian(n % 0x100, 1) == b[i..i + 1]
  {
    var n: int := b[i];
    if n < 0x80 then n else n - 0x100
  }

  /** Where the members of each kind begin, and where the last one ends. */
  function Offsets(k: Kind): seq<nat> {
    match k
    case PlayerJoinKind => [0, 4, 8, 25]
    case PlayerMoveKind => [0, 4, 8, 12, 16, 20]
    case PlayerShootKind => [0, 4, 6, 10, 14, 18, 22]
    case PlayerLeaveKind => [0, 4]
    case EntitySpawnKind => [0, 4, 6, 8, 12, 16, 20, 24]
    case EntityMoveKind => [0, 4, 8, 12, 16, 20, 21]
    case EntityDestroyKind => [0, 4, 5]
    case GameStartKind => [0, 4, 6, 7, 8, 12]
    case GameStateKind => [0, 4, 6, 8, 12, 13, 14, 15, 16]
    case PingKind => [0, 8]
    case PongKind => [0, 8]
    case MapResizeKind => [0, 4, 8]
    case PlayerNameKind => [0, 4, 21]
    case ChatMessageKind => [0, 4, 21, 149]
    case StageClearedKind => [0, 1]
    case ListRoomsKind => [0, 1]
    case RoomInfoKind => [0, 4, 5, 6, 7, 39]
    case CreateRoomKind => [0, 32, 33, 34, 35, 36, 37]
    case JoinRoomKind => [0, 4]
    case LobbyUpdateKind => [0, 1, 2]
  }

  /** The number of bytes of each kind. */
  function Bytecount(k: Kind): nat {
    match k
    case PlayerJoinKind => 25
    case PlayerMoveKind => 20
    case PlayerShootKind => 22
    case PlayerLeaveKind => 4
    case EntitySpawnKind => 24
    case EntityMoveKind => 21
    case EntityDestroyKind => 5
    case GameStartKind => 12
    case GameStateKind => 16
    case PingKind => 8
    case PongKind => 8
    case MapResizeKind => 8
    case PlayerNameKind => 21
    case ChatMessageKind => 149
    case StageClearedKind => 1
    case ListRoomsKind => 1
    case RoomInfoKind => 39
    case CreateRoomKind => 37
    case JoinRoomKind => 4
    case LobbyUpdateKind => 2
  }

  /** The message read from a body: which bytes make which member. */
  function Members(k: Kind, b: seq<u8>): Message
    requires |b| >= Bytecount(k)
  {
    match k
    case PlayerJoinKind =>
      PlayerJoin(U32At(b, 0), U32At(b, 4), b[8..25])
    case PlayerMoveKind =>
      PlayerMove(U32At(b, 0), U32At(b, 4), U32At(b, 8), U32At(b, 12), U32At(b, 16))
    case PlayerShootKind =>
      PlayerShoot(U32At(b, 0), U16At(b, 4), U32At(b, 6), U32At(b, 10), U32At(b, 14), U32At(b, 18))
    case PlayerLeaveKind =>
      PlayerLeave(U32At(b, 0))
    case EntitySpawnKind =>
      EntitySpawn(U32At(b, 0), U16At(b, 4), U16At(b, 6), U32At(b, 8), U32At(b, 12), U32At(b, 16), U32At(b, 20))
    case EntityMoveKind =>
      EntityMove(U32At(b, 0), U32At(b, 4), U32At(b, 8), U32At(b, 12), U32At(b, 16), U8At(b, 20))
    case EntityDestroyKind =>
      EntityDestroy(U32At(b, 0), U8At(b, 4))
    case GameStartKind =>
      GameStart(U32At(b, 0), U16At(b, 4), U8At(b, 6), U8At(b, 7), U32At(b, 8))
    case GameStateKind =>
      GameState(U32At(b, 0), U16At(b, 4), U16At(b, 6), U32At(b, 8), U8At(b, 12), U8At(b, 13), U8At(b, 14),
        U8At(b, 15))
    case PingKind =>
      Ping(U64At(b, 0))
    case PongKind =>
      Pong(U64At(b, 0))
    case MapResizeKind =>
      MapResize(U32At(b, 0), U32At(b, 4))
    case PlayerNameKind =>
      PlayerName(U32At(b, 0), b[4..21])
    case ChatMessageKind =>
      ChatMessage(U32At(b, 0), b[4..21], b[21..149])
    case StageClearedKind =>
      StageCleared(U8At(b, 0))
    case ListRoomsKind =>
      ListRooms(U8At(b, 0))
    case RoomInfoKind =>
      RoomInfo(U32At(b, 0), U8At(b, 4), U8At(b, 5), U8At(b, 6), b[7..39])
    case CreateRoomKind =>
      CreateRoom(b[0..32], U8At(b, 32), U8At(b, 33), U8At(b, 34), U8At(b, 35), U8At(b, 36))
    case JoinRoomKind =>
      JoinRoom(U32At(b, 0))
    case LobbyUpdateKind =>
      LobbyUpdate(I8At(b, 0), I8At(b, 1))
  }

  /** Part `i` is what lies between places `i` and `i + 1`. */
  predicate IsPiece(b: seq<u8>, offs: seq<nat>, parts: seq<seq<u8>>, i: nat) {
    i + 1 < |offs| && i < |parts| && offs[i] <= offs[i + 1] <= |b| && parts[i] == b[offs[i]..offs[i + 1]]
  }

  lemma {:induction false} CatPieces(b: seq<u8>, offs: seq<nat>, parts: seq<seq<u8>>)
    requires |offs| == |parts| + 1 && offs[0] <= |b|
    requires forall i :: 0 <= i < |parts| ==> IsPiece(b, offs, parts, i)
    ensures offs[0] <= offs[|parts|] <= |b| && Cat(parts) == b[offs[0]..offs[|parts|]]
    decreases |parts|
  {
    if parts != [] {
      assert IsPiece(b, offs, parts, 0);
      forall i | 0 <= i < |parts[1..]|
        ensures IsPiece(b, offs[1..], parts[1..], i)
      {
        assert IsPiece(b, offs, parts, i + 1);
      }
      CatPieces(b, offs[1..], parts[1..]);
    }
  }

  predicate MemberFits(k: Kind, b: seq<u8>, i: nat)
    requires |b| >= Bytecount(k)
  {
    IsPiece(b, Offsets(k), Parts(Members(k, b)), i)
  }

  predicate PiecesMatch(k: Kind, b: seq<u8>)
    requires |b| >= Bytecount(k)
  {
    var m, offs := Members(k, b), Offsets(k);
    && KindOf(m) == k && |offs| == |Parts(m)| + 1 && offs[0] == 0 && offs[|Parts(m)|] == Bytecount(k)
    && forall i :: 0 <= i < |Parts(m)| ==> MemberFits(k, b, i)
  }

  lemma Pieces1(k: Kind, b: seq<u8>)
    requires 1 <= Code(k) <= 3 && |b| >= Bytecount(k)
    ensures PiecesMatch(k, b)
  {
    match k
    case PlayerJoinKind => assert MemberFits(k, b, 0) && MemberFits(k, b, 1) && MemberFits(k, b, 2);
    case PlayerMoveKind => assert MemberFits(k, b, 0) && MemberFits(k, b, 1) && MemberFits(k, b, 2) &&
      MemberFits(k, b, 3) && MemberFits(k, b, 4);
    case PlayerShootKind => assert MemberFits(k, b, 0) && MemberFits(k, b, 1) && MemberFits(k, b, 2) &&
      MemberFits(k, b, 3) && MemberFits(k, b, 4) && MemberFits(k, b, 5);
  }

  lemma Pieces2(k: Kind, b: seq<u8>)
    requires 4 <= Code(k) <= 6 && |b| >= Bytecount(k)
    ensures PiecesMatch(k, b)
  {
    match k
    case PlayerLeaveKind => assert MemberFits(k, b, 0);
    case EntitySpawnKind => assert MemberFits(k, b, 0) && MemberFits(k, b, 1) && MemberFits(k, b, 2) &&
      MemberFits(k, b, 3) && MemberFits(k, b, 4) && MemberFits(k, b, 5) && MemberFits(k, b, 6);
    case EntityMoveKind => assert MemberFits(k, b, 0) && MemberFits(k, b, 1) && MemberFits(k, b, 2) &&
      MemberFits(k, b, 3) && MemberFits(k, b, 4) && MemberFits(k, b, 5);
  }

  lemma Pieces3(k: Kind, b: seq<u8>)
    requires 7 <= Code(k) <= 8 && |b| >= Bytecount(k)
    ensures PiecesMatch(k, b)
  {
    match k
    case EntityDestroyKind => assert MemberFits(k, b, 0) && MemberFits(k, b, 1);
    case GameStartKind => assert MemberFits(k, b, 0) && MemberFits(k, b, 1) && MemberFits(k, b, 2) &&
      MemberFits(k, b, 3) && MemberFits(k, b, 4);
  }

  lemma Pieces4(k: Kind, b: seq<u8>)
    requires 9 <= Code(k) <= 10 && |b| >= Bytecount(k)
    ensures PiecesMatch(k, b)
  {
    match k
    case GameStateKind => assert MemberFits(k, b, 0) && MemberFits(k, b, 1) && MemberFits(k, b, 2) &&
      MemberFits(k, b, 3) && MemberFits(k, b, 4) && MemberFits(k, b, 5) && MemberFits(k, b, 6) && MemberFits(k, b, 7);
    case PingKind => assert MemberFits(k, b, 0);
  }

  lemma Pieces5(k: Kind, b: seq<u8>)
    requires 11 <= Code(k) <= 13 && |b| >= Bytecount(k)
    ensures PiecesMatch(k, b)
  {
    match k
    case PongKind => assert MemberFits(k, b, 0);
    case MapResizeKind => assert MemberFits(k, b, 0) && MemberFits(k, b, 1);
    case PlayerNameKind => assert MemberFits(k, b, 0) && MemberFits(k, b, 1);
  }

  lemma Pieces6(k: Kind, b: seq<u8>)
    requires 14 <= Code(k) <= 16 && |b| >= Bytecount(k)
    ensures PiecesMatch(k, b)
  {
    match k
    case ChatMessageKind => assert MemberFits(k, b, 0) && MemberFits(k, b, 1) && MemberFits(k, b, 2);
    case StageClearedKind => assert MemberFits(k, b, 0);
    case ListRoomsKind => assert MemberFits(k, b, 0);
  }

  lemma Pieces7(k: Kind, b: seq<u8>)
    requires 17 <= Code(k) <= 20 && |b| >= Bytecount(k)
    ensures PiecesMatch(k, b)
  {
    match k
    case RoomInfoKind => assert MemberFits(k, b, 0) && MemberFits(k, b, 1) && MemberFits(k, b, 2) &&
      MemberFits(k, b, 3) && MemberFits(k, b, 4);
    case CreateRoomKind => assert MemberFits(k, b, 0) && MemberFits(k, b, 1) && MemberFits(k, b, 2) &&
      MemberFits(k, b, 3) && MemberFits(k, b, 4) && MemberFits(k, b, 5);
    case JoinRoomKind => assert MemberFits(k, b, 0);
    case LobbyUpdateKind => assert MemberFits(k, b, 0) && MemberFits(k, b, 1);
  }

  lemma AllPieces(k: Kind, b: seq<u8>)
    requires |b| >= Bytecount(k)
    ensures PiecesMatch(k, b)
  {
    var c := Code(k);
    if c <= 3 {
      Pieces1(k, b);
    } else if c <= 6 {
      Pieces2(k, b);
    } else if c <= 8 {
      Pieces3(k, b);
    } else if c <= 10 {
      Pieces4(k, b);
    } else if c <= 13 {
      Pieces5(k, b);
    } else if c <= 16 {
      Pieces6(k, b);
    } else {
      Pieces7(k, b);
    }
  }

  /** Every body is read member by member from these bytes, whatever follows them; and a shorter
      one not at all. */
  lemma ParseTakesItsMembers(k: Kind, b: seq<u8>)
    ensures Parse(k, b) == if |b| >= Bytecount(k) then Ok(Members(k, b)) else NotEnoughData
  {
    BytecountIsWidth(k);
    if |b| >= Bytecount(k) {
      var m, n := Members(k, b), Bytecount(k);
      AllPieces(k, b);
      forall i | 0 <= i < |Parts(m)|
        ensures IsPiece(b, Offsets(k), Parts(m), i)
      {
        assert MemberFits(k, b, i);
      }
      CatPieces(b, Offsets(k), Parts(m));
      BodyIsItsMembers(m);
      ParseBody(m, b, n);
    } else {
      ParseSucceedsExactly(k, b);
    }
  }

  lemma ParseBody(m: Message, b: seq<u8>, n: nat)
    requires n <= |b| && Body(m) == b[0..n]
    ensures Parse(KindOf(m), b) == Ok(m)
  {
    assert b == b[0..n] + b[n..];
    MessageRoundTrip(m, b[n..]);
  }

  lemma BytecountIsWidth(k: Kind)
    ensures Bytecount(k) == Width(ReadLayout(k))
  {
    WidthStep(ReadLayout(k));
  }
}
