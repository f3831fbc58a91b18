/** Writing messages into packets and reading them back (shared/net/Serializer.hpp,
    shared/net/Deserializer.hpp, shared/net/MessageSerializer.hpp), and the names they carry
    (shared/net/MessageData.hpp). */
module MessageSerializer {
  import opened Common
  import opened Bytes
  import opened MessageData
  import Packet

  class Serializer {
    var data: seq<u8>

    constructor ()
      ensures data == []
    {
      data := [];
    }

    method WriteByte(value: u8)
      modifies this
      ensures data == old(data) + [value]
    {
      data := data + [value];
    }

    method WriteNumber(value: nat, width: nat)
      modifies this
      ensures data == old(data) + LittleEndian(value, width)
    {
      data := data + LittleEndian(value, width);
    }

    /** The byte loop that writes a fixed run of characters. */
    method WriteCharacters(chars: seq<u8>)
      modifies this
      ensures data == old(data) + chars
    {
      for i := 0 to |chars|
        invariant data == old(data) + chars[..i]
      {
        WriteByte(chars[i]);
        assert chars[..i + 1] == chars[..i] + [chars[i]];
      }
      assert chars[..|chars|] == chars;
    }

    /** A string of any length, after its length in 32 bits. */
    method WriteString(str: seq<u8>)
      modifies this
      ensures data == old(data) + WithLength(str)
    {
      WriteNumber(|str| % 0x1_0000_0000, 4);
      data := data + str;
    }

    method WriteField(f: Field, s: Shape)
      requires Fits(f, s)
      modifies this
      ensures data == old(data) + EncodeField(f, s)
    {
      if f.Num? {
        WriteNumber(f.n, s.width);
      } else {
        WriteCharacters(f.chars);
      }
    }

    /** The writes of one message, field by field. */
    method WriteFields(fs: seq<Field>, ss: seq<Shape>)
      requires AllFit(fs, ss)
      modifies this
      ensures data == old(data) + Encode(fs, ss)
    {
      assert fs[0..] == fs && ss[0..] == ss;
      for i := 0 to |fs|
        invariant data + Encode(fs[i..], ss[i..]) == old(data) + Encode(fs, ss)
      {
        EncodeStep(fs, ss, i);
        WriteField(fs[i], ss[i]);
      }
    }
  }

  class Deserializer {
    const data: seq<u8>
    var offset: nat

    ghost predicate Valid()
      reads this
    {
      offset <= |data|
    }

    constructor (buffer: seq<u8>)
      ensures data == buffer && offset == 0 && Valid()
    {
      data, offset := buffer, 0;
    }

    /** Takes the next `count` bytes, or leaves the offset when there are not enough. */
    method ReadBytes(count: nat) returns (r: Result<seq<u8>>)
      requires Valid()
      modifies this
      ensures Valid()
      ensures if old(offset) + count > |data| then r.NotEnoughData? && offset == old(offset)
              else offset == old(offset) + count && r == Ok(data[old(offset)..offset])
    {
      if offset + count > |data| {
        return NotEnoughData;
      }
      r := Ok(data[offset..offset + count]);
      offset := offset + count;
    }

    /** The byte loop that reads a fixed run of characters; it may stop part way. */
    method ReadCharacters(count: nat) returns (r: Result<seq<u8>>)
      requires Valid()
      modifies this
      ensures Valid()
      ensures if old(offset) + count > |data| then r.NotEnoughData?
              else offset == old(offset) + count && r == Ok(data[old(offset)..offset])
    {
      var chars := [];
      for i := 0 to count
        invariant Valid() && offset == old(offset) + i && chars == data[old(offset)..offset]
      {
        var b :- ReadBytes(1);
        assert data[old(offset)..offset] == data[old(offset)..offset - 1] + b;
        chars := chars + b;
      }
      return Ok(chars);
    }

    /** May stop between the length and the characters, having taken the length. */
    method ReadString() returns (r: Result<seq<u8>>)
      requires Valid()
      modifies this
      ensures Valid() && r == TakeString(data[old(offset)..])
      ensures offset == old(offset) + (if r.Ok? then 4 + |r.value| else if old(offset) + 4 <= |data| then 4 else 0)
    {
      ghost var start := offset;
      var b :- ReadBytes(4);
      assert data[start..][..4] == b;
      var size := Value(b);
      r := ReadBytes(size);
      assert 4 + size <= |data[start..]| ==> data[start..][4..4 + size] == data[start + 4..start + 4 + size];
    }

    method ReadField(s: Shape) returns (r: Result<Field>)
      requires Valid()
      modifies this
      ensures Valid()
      ensures if old(offset) + Size(s) > |data| then r.NotEnoughData?
              else offset == old(offset) + Size(s) && r == Ok(DecodeField(data[old(offset)..offset], s))
    {
      match s
      case Number(w) =>
        var b :- ReadBytes(w);
        r := Ok(DecodeField(b, s));
      case Characters(c) =>
        var chars :- ReadCharacters(c);
        r := Ok(Chars(chars));
    }

    /** The reads of one message, field by field, failing at the first that lacks data. */
    method ReadFields(ss: seq<Shape>) returns (r: Result<seq<Field>>)
      requires Valid()
      modifies this
      ensures Valid()
      ensures r == Decode(data[old(offset)..], ss)
      ensures r.Ok? ==> offset == old(offset) + Width(ss)
    {
      var fs: seq<Field> := [];
      ghost var start := offset;
      ReadNothing(data, start, ss);
      for i := 0 to |ss|
        invariant ReadSoFar(data, start, offset, ss, i, fs)
      {
        var f := ReadNext(start, ss, i, fs);
        if f.NotEnoughData? {
          return NotEnoughData;
        }
        fs := fs + [f.value];
      }
      ReadAll(data, start, offset, ss, fs);
      r := Ok(fs);
    }

    method ReadNext(ghost start: nat, ss: seq<Shape>, i: nat, ghost fs: seq<Field>) returns (f: Result<Field>)
      requires i < |ss| && ReadSoFar(data, start, offset, ss, i, fs)
      modifies this
      ensures Valid() && start <= |data|
      ensures f.NotEnoughData? ==> Decode(data[start..], ss).NotEnoughData?
      ensures f.Ok? ==> ReadSoFar(data, start, offset, ss, i + 1, fs + [f.value])
    {
      if offset + Size(ss[i]) > |data| {
        ReadFails(data, start, offset, ss, i, fs);
      } else {
        ReadOneMore(data, start, offset, ss, i, fs);
      }
      f := ReadField(ss[i]);
    }
  }

  /** Reading from `start`, the first `i` fields came out as `fs` and the offset is `at`. */
  ghost predicate ReadSoFar(data: seq<u8>, start: nat, at: nat, ss: seq<Shape>, i: nat, fs: seq<Field>) {
    && start <= at <= |data| && i <= |ss| && |fs| == i && AllFit(fs, ss[..i])
    && Continues(Decode(data[start..], ss), fs, Decode(data[at..], ss[i..]))
    && at + Width(ss[i..]) == start + Width(ss)
  }

  lemma ReadNothing(data: seq<u8>, start: nat, ss: seq<Shape>)
    requires start <= |data|
    ensures ReadSoFar(data, start, start, ss, 0, [])
  {
    assert ss[0..] == ss;
    NothingDone(Decode(data[start..], ss));
  }

  lemma ReadFails(data: seq<u8>, start: nat, at: nat, ss: seq<Shape>, i: nat, fs: seq<Field>)
    requires ReadSoFar(data, start, at, ss, i, fs) && i < |ss| && at + Size(ss[i]) > |data|
    ensures Decode(data[start..], ss).NotEnoughData?
  {
    DecodeStep(data, at, ss, i);
  }

  lemma ReadOneMore(data: seq<u8>, start: nat, at: nat, ss: seq<Shape>, i: nat, fs: seq<Field>)
    requires ReadSoFar(data, start, at, ss, i, fs) && i < |ss| && at + Size(ss[i]) <= |data|
    ensures var n := at + Size(ss[i]);
      ReadSoFar(data, start, n, ss, i + 1, fs + [DecodeField(data[at..n], ss[i])])
  {
    var n := at + Size(ss[i]);
    var f := DecodeField(data[at..n], ss[i]);
    DecodeStep(data, at, ss, i);
    FitsOneMore(fs, f, ss, i);
    OneMoreDone(Decode(data[start..], ss), fs, Decode(data[at..], ss[i..]), f, Decode(data[n..], ss[i + 1..]));
  }

  lemma ReadAll(data: seq<u8>, start: nat, at: nat, ss: seq<Shape>, fs: seq<Field>)
    requires ReadSoFar(data, start, at, ss, |ss|, fs)
    ensures AllFit(fs, ss) && Decode(data[start..], ss) == Ok(fs) && at == start + Width(ss)
  {
    assert ss[|ss|..] == [] && ss[..|ss|] == ss && fs + [] == fs;
  }

  function WithLength(str: seq<u8>): seq<u8> {
    LittleEndian(|str| % 0x1_0000_0000, 4) + str
  }

  /** The string at the front of `b`, as its length field says. */
  function TakeString(b: seq<u8>): Result<seq<u8>> {
    if |b| < 4 then NotEnoughData
    else
      var size := Value(b[..4]);
      if 4 + size > |b| then NotEnoughData else Ok(b[4..4 + size])
  }

  /** A string with its length is read back, whatever follows, exactly when the length fits the
      32-bit field. */
  lemma StringComesBack(str: seq<u8>, after: seq<u8>)
    ensures TakeString(WithLength(str) + after) == Ok(str) <==> |str| < 0x1_0000_0000
  {
    var n := |str| % 0x1_0000_0000;
    var b := WithLength(str) + after;
    Widths();
    ValueOfLittleEndian(n, 4);
    assert b[..4] == LittleEndian(n, 4);
    assert b[4..4 + n] == (str + after)[..n];
    if |str| < 0x1_0000_0000 {
      assert (str + after)[..n] == str;
    } else {
      assert |b[4..4 + n]| == n < |str|;
    }
  }

  lemma EncodeStep(fs: seq<Field>, ss: seq<Shape>, i: nat)
    requires AllFit(fs, ss) && i < |fs|
    ensures Encode(fs[i..], ss[i..]) == EncodeField(fs[i], ss[i]) + Encode(fs[i + 1..], ss[i + 1..])
  {
    assert fs[i..][1..] == fs[i + 1..] && ss[i..][1..] == ss[i + 1..];
  }

  lemma DecodeStep(data: seq<u8>, at: nat, ss: seq<Shape>, i: nat)
    requires at <= |data| && i < |ss|
    ensures Width(ss[i..]) == Size(ss[i]) + Width(ss[i + 1..])
    ensures at + Size(ss[i]) > |data| ==> Decode(data[at..], ss[i..]).NotEnoughData?
    ensures at + Size(ss[i]) <= |data| ==>
      var n := at + Size(ss[i]);
      Continues(Decode(data[at..], ss[i..]), [DecodeField(data[at..n], ss[i])], Decode(data[n..], ss[i + 1..]))
  {
    assert ss[i..][1..] == ss[i + 1..];
    if at + Size(ss[i]) <= |data| {
      assert data[at..][Size(ss[i])..] == data[at + Size(ss[i])..];
      assert data[at..][..Size(ss[i])] == data[at..at + Size(ss[i])];
    }
  }

  lemma NothingDone(all: Result<seq<Field>>)
    ensures Continues(all, [], all)
  {
    assert all.Ok? ==> [] + all.value == all.value;
  }

  lemma OneMoreDone(all: Result<seq<Field>>, done: seq<Field>, here: Result<seq<Field>>, f: Field,
                    rest: Result<seq<Field>>)
    requires Continues(all, done, here) && Continues(here, [f], rest)
    ensures Continues(all, done + [f], rest)
  {
    assert rest.Ok? ==> done + ([f] + rest.value) == done + [f] + rest.value;
  }

  lemma FitsOneMore(fs: seq<Field>, f: Field, ss: seq<Shape>, i: nat)
    requires i < |ss| && |fs| == i && AllFit(fs, ss[..i]) && Fits(f, ss[i])
    ensures AllFit(fs + [f], ss[..i + 1])
  {
  }

  predicate Continues(all: Result<seq<Field>>, done: seq<Field>, rest: Result<seq<Field>>) {
    all == if rest.NotEnoughData? then NotEnoughData else Ok(done + rest.value)
  }

  /** The body of a message. */
  function Body(m: Message): seq<u8> {
    FieldsFit(m);
    Encode(Fields(m), Layout(KindOf(m)))
  }

  /** The message of kind `k` at the front of a body. */
  function Parse(k: Kind, body: seq<u8>): Result<Message> {
    match Decode(body, ReadLayout(k))
    case NotEnoughData => NotEnoughData
    case Ok(fs) => Ok(FromFields(k, fs))
  }

  /** The `serialize_*` of the message's kind. */
  method SerializeMessage(m: Message) returns (p: Packet.Packet)
    ensures p == Packet.Make(Code(KindOf(m)), Body(m))
  {
    FieldsFit(m);
    var serializer := new Serializer();
    serializer.WriteFields(Fields(m), Layout(KindOf(m)));
    p := Packet.Make(Code(KindOf(m)), serializer.data);
  }

  /** The `deserialize_*` of kind `k`. It does not look at the header. */
  method DeserializeMessage(k: Kind, p: Packet.Packet) returns (r: Result<Message>, consumed: nat)
    ensures r == Parse(k, p.body)
    ensures r.Ok? ==> consumed == Width(ReadLayout(k)) <= |p.body|
  {
    var deserializer := new Deserializer(p.body);
    assert p.body[0..] == p.body;
    var fs := deserializer.ReadFields(ReadLayout(k));
    consumed := deserializer.offset;
    r := if fs.Ok? then Ok(FromFields(k, fs.value)) else NotEnoughData;
  }

  /** Deserializing succeeds exactly on bodies at least as long as the layout. */
  lemma ParseSucceedsExactly(k: Kind, body: seq<u8>)
    ensures Parse(k, body).Ok? <==> |body| >= Width(ReadLayout(k))
    ensures Parse(k, body).Ok? ==>
      KindOf(Parse(k, body).value) == k && Body(Parse(k, body).value) == body[..Width(ReadLayout(k))]
  {
    DecodeExactly(body, ReadLayout(k));
    if |body| >= Width(ReadLayout(k)) {
      LayoutsAgree(k);
      FieldsOfFromFields(k, Decode(body, ReadLayout(k)).value);
    }
  }

  /** A message written into a body, whatever follows it there, is read back unchanged. */
  lemma MessageRoundTrip(m: Message, after: seq<u8>)
    ensures |Body(m)| == Width(Layout(KindOf(m))) && Parse(KindOf(m), Body(m) + after) == Ok(m)
  {
    FromFieldsOfMessage(m);
    LayoutsAgree(KindOf(m));
    DecodeEncoded(Fields(m), Layout(KindOf(m)), after);
  }

  lemma LayoutWidths(k: Kind)
    ensures 1 <= Width(Layout(k)) <= 149
    ensures Width(Layout(PlayerJoinKind)) == 25
  {
    WidthStep(Layout(k));
    WidthStep(Layout(PlayerJoinKind));
  }

  lemma WidthStep(ss: seq<Shape>)
    requires |ss| <= 8
    ensures Width(ss) == (if |ss| > 0 then Size(ss[0]) else 0) + (if |ss| > 1 then Size(ss[1]) else 0)
      + (if |ss| > 2 then Size(ss[2]) else 0) + (if |ss| > 3 then Size(ss[3]) else 0)
      + (if |ss| > 4 then Size(ss[4]) else 0) + (if |ss| > 5 then Size(ss[5]) else 0)
      + (if |ss| > 6 then Size(ss[6]) else 0) + (if |ss| > 7 then Size(ss[7]) else 0)
    decreases |ss|
  {
    if ss != [] {
      WidthStep(ss[1..]);
    }
  }

  lemma BodyOnWire(k: Kind, body: seq<u8>)
    requires |body| <= 1020
    ensures var data := Packet.ToBytes(Packet.Make(Code(k), body));
      && Packet.Validate(data)
      && Packet.FromBytes(data).messageType == Code(k) && Packet.FromBytes(data).body == body
  {
    var p := Packet.Make(Code(k), body);
    Packet.PacketRoundTrip(p);
    Packet.ValidatorIsExact(Packet.ToBytes(p));
  }

  /** From message to datagram and back: the datagram is accepted by the validator, names the
      message's kind, and gives back the message. */
  lemma WireRoundTrip(m: Message)
    ensures var data := Packet.ToBytes(Packet.Make(Code(KindOf(m)), Body(m)));
      && Packet.Validate(data)
      && Packet.FromBytes(data).messageType == Code(KindOf(m))
      && Parse(KindOf(m), Packet.FromBytes(data).body) == Ok(m)
  {
    ReadBack(m);
    MessageRoundTrip(m, []);
    LayoutWidths(KindOf(m));
    BodyOnWire(KindOf(m), Body(m));
  }

  // Names: `memset` and `strncpy` into a fixed buffer, and back as a C string.

  /** The characters before the first NUL: what `c_str` shows of a string, and what a string
      made from a buffer holds. */
  function UpToNul(s: seq<u8>): (t: seq<u8>)
    ensures t <= s && 0 !in t && (|t| < |s| ==> s[|t|] == 0)
  {
    if s == [] || s[0] == 0 then [] else [s[0]] + UpToNul(s[1..])
  }

  function First(s: seq<u8>, n: nat): seq<u8> {
    if |s| <= n then s else s[..n]
  }

  /** The buffer of `size` characters that a constructor fills from `name`. */
  function Buffer(name: seq<u8>, size: nat): (b: seq<u8>)
    requires size > 0
    ensures |b| == size
  {
    var kept := First(UpToNul(name), size - 1);
    kept + seq(size - |kept|, i => 0)
  }

  method FillBuffer(dst: array<u8>, name: seq<u8>)
    requires dst.Length > 0
    modifies dst
    ensures dst[..] == Buffer(name, dst.Length)
  {
    for i := 0 to dst.Length
      invariant forall j :: 0 <= j < i ==> dst[j] == 0
    {
      dst[i] := 0;
    }
    ghost var source := UpToNul(name);
    var i := 0;
    while i < dst.Length - 1 && i < |name| && name[i] != 0
      invariant i <= |source| && i <= dst.Length - 1
      invariant forall j :: 0 <= j < i ==> dst[j] == name[j]
      invariant forall j :: i <= j < dst.Length ==> dst[j] == 0
    {
      dst[i] := name[i];
      i := i + 1;
    }
    assert First(source, dst.Length - 1) == name[..i];
  }

  lemma {:induction false} UpToNulOf(kept: seq<u8>, after: seq<u8>)
    requires 0 !in kept && (after == [] || after[0] == 0)
    ensures UpToNul(kept + after) == kept
    decreases |kept|
  {
    if kept != [] {
      assert (kept + after)[1..] == kept[1..] + after;
      UpToNulOf(kept[1..], after);
    } else {
      assert kept + after == after;
    }
  }

  /** The buffer holds the name's first `size - 1` characters, cut at the first NUL. */
  lemma BufferHolds(name: seq<u8>, size: nat)
    requires size > 0
    ensures UpToNul(Buffer(name, size)) == First(UpToNul(name), size - 1)
  {
    var kept := First(UpToNul(name), size - 1);
    UpToNulOf(kept, seq(size - |kept|, i => 0));
  }

  /** A string up to its first NUL, then cut, is the string cut exactly when the cut has no NUL. */
  lemma CutIsWhole(name: seq<u8>, n: nat)
    ensures First(UpToNul(name), n) == First(name, n) <==> 0 !in First(name, n)
  {
    var t := UpToNul(name);
    if |t| < |First(name, n)| {
      assert First(name, n)[|t|] == 0;
      assert 0 !in t;
    } else {
      assert First(t, n) == First(name, n) == t[..|First(name, n)|];
    }
  }

  /** A name comes back as its first `size - 1` characters, cut at the first NUL; so as just its
      first `size - 1` characters exactly when there is no NUL among them. */
  lemma NameComesBack(name: seq<u8>, size: nat)
    requires size > 0
    ensures UpToNul(Buffer(name, size)) == First(UpToNul(name), size - 1)
    ensures UpToNul(Buffer(name, size)) == First(name, size - 1) <==> 0 !in First(name, size - 1)
  {
    BufferHolds(name, size);
    CutIsWhole(name, size - 1);
  }

  /** Sixteen characters of a player's name survive the wire. */
  lemma PlayerNameComesBack(m: Message, name: seq<u8>)
    requires (m.PlayerJoin? || m.PlayerName? || m.ChatMessage?) && m.name == Buffer(name, 17)
    ensures Parse(KindOf(m), Body(m)) == Ok(m) && UpToNul(m.name) == First(UpToNul(name), 16)
  {
    ReadBack(m);
    NameComesBack(name, 17);
  }

  /** Thirty-one characters of a room's name survive the wire. */
  lemma RoomNameComesBack(m: Message, room: seq<u8>)
    requires (m.RoomInfo? || m.CreateRoom?) && m.room == Buffer(room, 32)
    ensures Parse(KindOf(m), Body(m)) == Ok(m) && UpToNul(m.room) == First(UpToNul(room), 31)
  {
    ReadBack(m);
    NameComesBack(room, 32);
  }

  /** 127 characters of a chat line survive the wire. */
  lemma ChatTextComesBack(m: Message, text: seq<u8>)
    requires m.ChatMessage? && m.text == Buffer(text, 128)
    ensures Parse(KindOf(m), Body(m)) == Ok(m) && UpToNul(m.text) == First(UpToNul(text), 127)
  {
    ReadBack(m);
    NameComesBack(text, 128);
  }

  lemma ReadBack(m: Message)
    ensures Parse(KindOf(m), Body(m)) == Ok(m)
  {
    MessageRoundTrip(m, []);
    assert Body(m) + [] == Body(m);
  }
}
