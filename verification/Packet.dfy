/** The packet frame and its validator (shared/net/Packet.hpp, shared/net/ProtocolAdapter.hpp). */
module Packet {
  import opened Common
  import opened Bytes

  const HEADER_SIZE := 4
  const MAX_PAYLOAD_SIZE := 1024 - HEADER_SIZE
  const MAX_TYPE := 30

  datatype Packet = Packet(messageType: u16, payloadSize: u16, body: seq<u8>)

  const EMPTY := Packet(0, 0, [])

  /** The constructor, which narrows the body's length to 16 bits. */
  function Make(messageType: u16, data: seq<u8>): Packet {
    Packet(messageType, |data| % 0x1_0000, data)
  }

  function ToBytes(p: Packet): seq<u8> {
    LittleEndian(p.messageType, 2) + LittleEndian(p.payloadSize, 2) + p.body
  }

  function HeaderNumber(b: seq<u8>): (n: u16)
    requires |b| == 2
    ensures n == Value(b) && LittleEndian(n, 2) == b
  {
    LittleEndianOfValue(b);
    Widths();
    Value(b)
  }

  function FromBytes(data: seq<u8>): Packet {
    if |data| < HEADER_SIZE then EMPTY
    else Packet(HeaderNumber(data[..2]), HeaderNumber(data[2..4]), data[4..])
  }

  method Serialize(p: Packet) returns (result: seq<u8>)
    ensures result == ToBytes(p)
  {
    result := LittleEndian(p.messageType, 2) + LittleEndian(p.payloadSize, 2);
    result := result + p.body;
  }

  method Deserialize(data: seq<u8>) returns (p: Packet)
    ensures p == FromBytes(data)
  {
    p := EMPTY;
    if |data| >= HEADER_SIZE {
      p := p.(messageType := HeaderNumber(data[..2]), payloadSize := HeaderNumber(data[2..4]));
      if |data| > HEADER_SIZE {
        p := p.(body := data[HEADER_SIZE..]);
      }
    }
  }

  /** `validate`; the expected size is computed in 16 bits. */
  predicate Validate(data: seq<u8>) {
    if data == [] || |data| < HEADER_SIZE then false
    else
      var messageType := HeaderNumber(data[..2]);
      var payloadSize := HeaderNumber(data[2..4]);
      var expected := (HEADER_SIZE + payloadSize) % 0x1_0000;
      if |data| != expected then false
      else if messageType == 0 || messageType > MAX_TYPE then false
      else if payloadSize > MAX_PAYLOAD_SIZE then false
      else true
  }

  /** The packets the protocol admits. */
  predicate WellFormed(p: Packet) {
    1 <= p.messageType <= MAX_TYPE && p.payloadSize == |p.body| <= MAX_PAYLOAD_SIZE
  }

  lemma PacketRoundTrip(p: Packet)
    ensures FromBytes(ToBytes(p)) == p
  {
    Widths();
    ValueOfLittleEndian(p.messageType, 2);
    ValueOfLittleEndian(p.payloadSize, 2);
    var b := ToBytes(p);
    assert b[..2] == LittleEndian(p.messageType, 2) && b[2..4] == LittleEndian(p.payloadSize, 2) && b[4..] == p.body;
  }

  lemma BytesOfPacket(data: seq<u8>)
    requires |data| >= HEADER_SIZE
    ensures ToBytes(FromBytes(data)) == data
  {
    assert data == data[..2] + data[2..4] + data[4..];
  }

  /** The validator, despite its 16-bit sum, accepts exactly the byte strings of well-formed
      packets, and the packet read from them is that one. */
  lemma ValidatorIsExact(data: seq<u8>)
    ensures Validate(data) <==> (exists p :: WellFormed(p) && ToBytes(p) == data)
    ensures Validate(data) ==> WellFormed(FromBytes(data)) && ToBytes(FromBytes(data)) == data
    ensures Validate(data) <==>
      |data| >= 4 && 1 <= Value(data[..2]) <= 30 && Value(data[2..4]) == |data| - 4 <= 1020
  {
    if Validate(data) {
      BytesOfPacket(data);
    }
    if p :| WellFormed(p) && ToBytes(p) == data {
      PacketRoundTrip(p);
      assert |data| == HEADER_SIZE + |p.body|;
    }
  }
}
