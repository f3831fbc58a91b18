/** Byte strings: little-endian integers of a fixed width, and reading values off the front. */
module Bytes {
  import opened Common

  datatype Result<+T> = Ok(value: T) | NotEnoughData {
    predicate IsFailure() { NotEnoughData? }
    function PropagateFailure<U>(): Result<U>
      requires IsFailure()
    { NotEnoughData }
    function Extract(): T
      requires !IsFailure()
    { value }
  }

  function Pow256(w: nat): nat {
    if w == 0 then 1 else 0x100 * Pow256(w - 1)
  }

  function LittleEndian(n: nat, w: nat): (s: seq<u8>)
    ensures |s| == w
  {
    if w == 0 then [] else [n % 0x100] + LittleEndian(n / 0x100, w - 1)
  }

  function Value(s: seq<u8>): nat
    decreases |s|
  {
    if s == [] then 0 else s[0] + 0x100 * Value(s[1..])
  }

  lemma {:induction false} ValueOfLittleEndian(n: nat, w: nat)
    requires n < Pow256(w)
    ensures Value(LittleEndian(n, w)) == n
  {
    if w > 0 {
      ValueOfLittleEndian(n / 0x100, w - 1);
      assert LittleEndian(n, w)[1..] == LittleEndian(n / 0x100, w - 1);
    }
  }

  lemma SplitByte(low: u8, high: nat)
    ensures (low + 0x100 * high) % 0x100 == low && (low + 0x100 * high) / 0x100 == high
  {
  }

  lemma {:induction false} LittleEndianOfValue(s: seq<u8>)
    ensures Value(s) < Pow256(|s|) && LittleEndian(Value(s), |s|) == s
    decreases |s|
  {
    if s != [] {
      LittleEndianOfValue(s[1..]);
      SplitByte(s[0], Value(s[1..]));
      assert s == [s[0]] + s[1..];
    }
  }

  lemma Widths()
    ensures Pow256(1) == 0x100 && Pow256(2) == 0x1_0000 && Pow256(4) == 0x1_0000_0000
    ensures Pow256(8) == 0x1_0000_0000_0000_0000
  {
    assert Pow256(3) == 0x100 * Pow256(2) && Pow256(4) == 0x100 * Pow256(3);
    assert Pow256(5) == 0x100 * Pow256(4) && Pow256(6) == 0x100 * Pow256(5);
    assert Pow256(7) == 0x100 * Pow256(6) && Pow256(8) == 0x100 * Pow256(7);
  }

  // A message body is a list of fields, each a number of fixed width or a fixed run of
  // characters.

  datatype Shape = Number(width: nat) | Characters(count: nat)
  datatype Field = Num(n: nat) | Chars(chars: seq<u8>)

  predicate Fits(f: Field, s: Shape) {
    match s
    case Number(w) => f.Num? && f.n < Pow256(w)
    case Characters(c) => f.Chars? && |f.chars| == c
  }

  predicate AllFit(fs: seq<Field>, ss: seq<Shape>) {
    |fs| == |ss| && forall i :: 0 <= i < |fs| ==> Fits(fs[i], ss[i])
  }

  function Size(s: Shape): nat {
    match s
    case Number(w) => w
    case Characters(c) => c
  }

  function Width(ss: seq<Shape>): nat
    decreases |ss|
  {
    if ss == [] then 0 else Size(ss[0]) + Width(ss[1..])
  }

  function EncodeField(f: Field, s: Shape): (b: seq<u8>)
    requires Fits(f, s)
    ensures |b| == Size(s)
  {
    match s
    case Number(w) => LittleEndian(f.n, w)
    case Characters(_) => f.chars
  }

  function DecodeField(b: seq<u8>, s: Shape): (f: Field)
    requires |b| == Size(s)
    ensures Fits(f, s)
  {
    match s
    case Number(w) => LittleEndianOfValue(b); Num(Value(b))
    case Characters(_) => Chars(b)
  }

  lemma FieldRoundTrip(f: Field, s: Shape)
    requires Fits(f, s)
    ensures DecodeField(EncodeField(f, s), s) == f
  {
    if s.Number? {
      ValueOfLittleEndian(f.n, s.width);
    }
  }

  lemma BytesRoundTrip(b: seq<u8>, s: Shape)
    requires |b| == Size(s)
    ensures EncodeField(DecodeField(b, s), s) == b
  {
    if s.Number? {
      LittleEndianOfValue(b);
    }
  }

  function Encode(fs: seq<Field>, ss: seq<Shape>): seq<u8>
    requires AllFit(fs, ss)
    decreases |fs|
  {
    if fs == [] then [] else EncodeField(fs[0], ss[0]) + Encode(fs[1..], ss[1..])
  }

  /** Reading the fields off the front of `b`; bytes after the last field stay unread. */
  function Decode(b: seq<u8>, ss: seq<Shape>): (r: Result<seq<Field>>)
    ensures r.Ok? ==> AllFit(r.value, ss)
    decreases |ss|
  {
    if ss == [] then Ok([])
    else if |b| < Size(ss[0]) then NotEnoughData
    else
      var rest := Decode(b[Size(ss[0])..], ss[1..]);
      if rest.NotEnoughData? then NotEnoughData
      else Ok([DecodeField(b[..Size(ss[0])], ss[0])] + rest.value)
  }

  lemma DecodeFront(first: seq<u8>, more: seq<u8>, ss: seq<Shape>)
    requires ss != [] && |first| == Size(ss[0])
    ensures Decode(first + more, ss) ==
      var rest := Decode(more, ss[1..]);
      if rest.NotEnoughData? then NotEnoughData else Ok([DecodeField(first, ss[0])] + rest.value)
  {
    var b := first + more;
    assert b[..|first|] == first && b[|first|..] == more;
  }

  lemma {:induction false} EncodedWidth(fs: seq<Field>, ss: seq<Shape>)
    requires AllFit(fs, ss)
    ensures |Encode(fs, ss)| == Width(ss)
    decreases |fs|
  {
    if fs != [] {
      EncodedWidth(fs[1..], ss[1..]);
    }
  }

  lemma {:induction false} DecodeEncoded(fs: seq<Field>, ss: seq<Shape>, after: seq<u8>)
    requires AllFit(fs, ss)
    ensures |Encode(fs, ss)| == Width(ss) && Decode(Encode(fs, ss) + after, ss) == Ok(fs)
    decreases |fs|
  {
    EncodedWidth(fs, ss);
    if fs != [] {
      DecodeEncoded(fs[1..], ss[1..], after);
      DecodeFirst(fs, ss, after);
    } else {
      assert ss == [];
    }
  }

  lemma Regroup(a: seq<u8>, b: seq<u8>, c: seq<u8>)
    ensures a + b + c == a + (b + c)
  {
  }

  lemma DecodeFirst(fs: seq<Field>, ss: seq<Shape>, after: seq<u8>)
    requires AllFit(fs, ss) && fs != [] && Decode(Encode(fs[1..], ss[1..]) + after, ss[1..]) == Ok(fs[1..])
    ensures Decode(Encode(fs, ss) + after, ss) == Ok(fs)
  {
    var first, more := EncodeField(fs[0], ss[0]), Encode(fs[1..], ss[1..]);
    FieldRoundTrip(fs[0], ss[0]);
    DecodeFront(first, more + after, ss);
    Regroup(first, more, after);
    assert Encode(fs, ss) == first + more;
    assert fs == [fs[0]] + fs[1..];
  }

  /** Decoding succeeds exactly on bodies at least as long as the layout, and then encoding
      gives back the bytes that were read. */
  lemma {:induction false} DecodeExactly(b: seq<u8>, ss: seq<Shape>)
    ensures Decode(b, ss).Ok? <==> |b| >= Width(ss)
    ensures |b| >= Width(ss) ==> Encode(Decode(b, ss).value, ss) == b[..Width(ss)]
    decreases |ss|
  {
    if ss != [] && |b| >= Size(ss[0]) {
      var n := Size(ss[0]);
      DecodeExactly(b[n..], ss[1..]);
      if |b| >= Width(ss) {
        BytesRoundTrip(b[..n], ss[0]);
        var rest := Decode(b[n..], ss[1..]).value;
        var all := Decode(b, ss).value;
        assert all[0] == DecodeField(b[..n], ss[0]) && all[1..] == rest;
        assert b[..n] + b[n..][..Width(ss[1..])] == b[..Width(ss)];
      }
    }
  }
}
