/** Length-prefixed frames, and the reader that reassembles them from a byte stream. */
module Packets {
  import opened GoTypes

  const HEADER_SIZE := 12
  const MAX_PACKET_SIZE := 0x1_0000

  /** What a packet says: message id, sequence number, error code and body. */
  datatype Frame = Frame(msgId: uint16, sequence: uint32, errCode: uint16, body: seq<byte>) {
    predicate Fits() {
      HEADER_SIZE + |body| <= MAX_PACKET_SIZE
    }
  }

  datatype Error = TooShort | InvalidLength | Incomplete | ReadFailed

  // ---------------------------------------------------------------------
  // Big-endian numbers
  // ---------------------------------------------------------------------

  function BE16(n: uint16): (b: seq<byte>)
    ensures |b| == 2
  {
    [n / 0x100, n % 0x100]
  }

  function BE32(n: uint32): (b: seq<byte>)
    ensures |b| == 4
  {
    [n / 0x100_0000, n / 0x1_0000 % 0x100, n / 0x100 % 0x100, n % 0x100]
  }

  function Num16(b: seq<byte>): uint16
    requires |b| == 2
  {
    b[0] as int * 0x100 + b[1] as int
  }

  function Num32(b: seq<byte>): uint32
    requires |b| == 4
  {
    b[0] as int * 0x100_0000 + b[1] as int * 0x1_0000 + b[2] as int * 0x100 + b[3] as int
  }

  lemma Numbers16(n: uint16, b: seq<byte>)
    requires |b| == 2
    ensures Num16(BE16(n)) == n && BE16(Num16(b)) == b
  {}

  lemma HighHalf(n: uint32)
    ensures n / 0x100_0000 == (n / 0x1_0000) / 0x100 && n / 0x1_0000 % 0x100 == (n / 0x1_0000) % 0x100
  {}

  lemma LowHalf(n: uint32)
    ensures n / 0x100 % 0x100 == (n % 0x1_0000) / 0x100
    ensures n % 0x100 == (n % 0x1_0000) % 0x100
  {
    var hi, lo := n / 0x1_0000, n % 0x1_0000;
    assert n / 0x100 == hi * 0x100 + lo / 0x100;
  }

  /** The four digits of a number to base 256 are those of its two halves. */
  lemma Joins(n: uint32, b: seq<byte>)
    requires |b| == 4
    ensures Num32(b) == Num16(b[..2]) as int * 0x1_0000 + Num16(b[2..]) as int
    ensures BE32(n) == BE16(n / 0x1_0000) + BE16(n % 0x1_0000)
  {
    HighHalf(n);
    LowHalf(n);
  }

  lemma NumberBack(n: uint32)
    ensures Num32(BE32(n)) == n
  {
    hide BE16, Num16, BE32, Num32;
    var hi, lo := n / 0x1_0000, n % 0x1_0000;
    Joins(n, BE32(n));
    Numbers16(hi, BE16(hi));
    Numbers16(lo, BE16(lo));
    assert BE32(n)[..2] == BE16(hi) && BE32(n)[2..] == BE16(lo);
  }

  lemma BytesBack(b: seq<byte>)
    requires |b| == 4
    ensures BE32(Num32(b)) == b
  {
    hide BE16, Num16, BE32, Num32;
    Joins(Num32(b), b);
    Numbers16(0, b[..2]);
    Numbers16(0, b[2..]);
    assert b == b[..2] + b[2..];
  }

  lemma Numbers32(n: uint32, b: seq<byte>)
    requires |b| == 4
    ensures Num32(BE32(n)) == n && BE32(Num32(b)) == b
  {
    NumberBack(n);
    BytesBack(b);
  }

  // ---------------------------------------------------------------------
  // Frames as bytes
  // ---------------------------------------------------------------------

  /** The bytes of a frame. The length field has 32 bits. */
  function Encode(f: Frame): (b: seq<byte>)
    ensures |b| == HEADER_SIZE + |f.body|
  {
    BE32((HEADER_SIZE + |f.body|) % 0x1_0000_0000) + BE16(f.msgId) + BE32(f.sequence) + BE16(f.errCode) + f.body
  }

  function LengthField(data: seq<byte>): uint32
    requires |data| >= HEADER_SIZE
  {
    Num32(data[..4])
  }

  predicate ValidLength(n: uint32) {
    HEADER_SIZE <= n <= MAX_PACKET_SIZE
  }

  /** The fields of the frame at the head of data. */
  function FieldsOf(data: seq<byte>): Frame
    requires |data| >= HEADER_SIZE && ValidLength(LengthField(data)) && LengthField(data) <= |data|
  {
    Frame(Num16(data[4..6]), Num32(data[6..10]), Num16(data[10..12]), data[12..LengthField(data)])
  }

  /** What decoding the frame at the head of data gives; bytes after it are ignored. */
  function Decode(data: seq<byte>): Result<Frame, Error> {
    if |data| < HEADER_SIZE then Failure(TooShort)
    else if !ValidLength(LengthField(data)) then Failure(InvalidLength)
    else if LengthField(data) > |data| then Failure(Incomplete)
    else Success(FieldsOf(data))
  }

  lemma EncodedParts(f: Frame, tail: seq<byte>)
    ensures var b := Encode(f) + tail;
            && b[..4] == BE32((HEADER_SIZE + |f.body|) % 0x1_0000_0000)
            && b[4..6] == BE16(f.msgId) && b[6..10] == BE32(f.sequence) && b[10..12] == BE16(f.errCode)
            && b[12..12 + |f.body|] == f.body && b[12 + |f.body|..] == tail
            && LengthField(b) == (HEADER_SIZE + |f.body|) % 0x1_0000_0000
  {
    hide BE16, BE32, Num16, Num32;
    var n := (HEADER_SIZE + |f.body|) % 0x1_0000_0000;
    Numbers32(n, BE32(n));
    var b := Encode(f) + tail;
    assert b == BE32(n) + (BE16(f.msgId) + (BE32(f.sequence) + (BE16(f.errCode) + (f.body + tail))));
  }

  /** A frame within the size limit is read back from the head of any data it begins. */
  lemma DecodeEncoded(f: Frame, tail: seq<byte>)
    requires f.Fits()
    ensures Decode(Encode(f) + tail) == Success(f)
  {
    hide BE16, BE32, Num16, Num32;
    EncodedParts(f, tail);
    Numbers16(f.msgId, BE16(f.msgId));
    Numbers32(f.sequence, BE32(f.sequence));
    Numbers16(f.errCode, BE16(f.errCode));
  }

  /** Unmarshal undoes Marshal exactly for the packets within the size limit; nothing checks it on the way out. */
  lemma RoundTripIff(f: Frame)
    ensures Decode(Encode(f)) == Success(f) <==> f.Fits()
  {
    assert Encode(f) + [] == Encode(f);
    if f.Fits() {
      DecodeEncoded(f, []);
    } else {
      EncodedParts(f, []);
    }
  }

  /** Conversely, whatever decodes is the encoding of what it decodes to. */
  lemma EncodeDecoded(data: seq<byte>)
    requires Decode(data).Success?
    ensures var f := Decode(data).value;
            f.Fits() && |Encode(f)| == LengthField(data) && Encode(f) == data[..LengthField(data)]
  {
    hide BE16, BE32, Num16, Num32;
    var n := LengthField(data);
    Numbers32(n, data[..4]);
    Numbers16(0, data[4..6]);
    Numbers32(0, data[6..10]);
    Numbers16(0, data[10..12]);
    assert data[..n] == data[..4] + (data[4..6] + (data[6..10] + (data[10..12] + data[12..n])));
  }

  /** No frame within the limit is a proper prefix of another. */
  lemma PrefixFree(f: Frame, g: Frame)
    requires f.Fits() && g.Fits() && Encode(f) <= Encode(g)
    ensures f == g
  {
    DecodeEncoded(f, Encode(g)[|Encode(f)|..]);
    assert Encode(f) + Encode(g)[|Encode(f)|..] == Encode(g) + [];
    DecodeEncoded(g, []);
  }

  // ---------------------------------------------------------------------
  // On the wire
  // ---------------------------------------------------------------------

  /** What a byte string is worth to base 256, the most significant byte first. */
  function Base256(b: seq<byte>): nat {
    if b == [] then 0 else Base256(b[..|b| - 1]) * 0x100 + b[|b| - 1] as nat
  }

  lemma Base256Of2(b: seq<byte>)
    requires |b| == 2
    ensures Base256(b) == Num16(b) == b[0] as nat * 0x100 + b[1] as nat
  {
    var head := b[..1];
    assert head[..0] == [] && head[0] == b[0];
    assert Base256(head) == b[0] as nat;
  }

  lemma Base256Of4(b: seq<byte>)
    requires |b| == 4
    ensures Base256(b) == Num32(b)
  {
    assert b[..3][..2] == b[..2] && b[..3][2] == b[2];
    Base256Of2(b[..2]);
  }

  /** buf is the frame on the wire: total length, message id, sequence number, error code and body, in that order. */
  ghost predicate OnTheWire(buf: seq<byte>, f: Frame) {
    && |buf| == 12 + |f.body|
    && Base256(buf[..4]) == (12 + |f.body|) % 0x1_0000_0000
    && Base256(buf[4..6]) == f.msgId && Base256(buf[6..10]) == f.sequence && Base256(buf[10..12]) == f.errCode
    && buf[12..] == f.body
  }

  /** The encoding of a frame is these bytes and no others. */
  lemma EncodeIff(f: Frame, buf: seq<byte>)
    ensures OnTheWire(buf, f) <==> buf == Encode(f)
  {
    EncodedOnWire(f);
    if OnTheWire(buf, f) {
      var b := Encode(f);
      WireFields(buf, f);
      WireFields(b, f);
      assert buf == buf[..4] + (buf[4..6] + (buf[6..10] + (buf[10..12] + buf[12..])));
      assert b == b[..4] + (b[4..6] + (b[6..10] + (b[10..12] + b[12..])));
    }
  }

  lemma EncodedOnWire(f: Frame)
    ensures OnTheWire(Encode(f), f)
  {
    hide BE16, BE32, Num16, Num32, Base256;
    var b, n := Encode(f), (HEADER_SIZE + |f.body|) % 0x1_0000_0000;
    assert b + [] == b;
    EncodedParts(f, []);
    Numbers32(n, b[..4]);
    Numbers16(f.msgId, b[4..6]);
    Numbers32(f.sequence, b[6..10]);
    Numbers16(f.errCode, b[10..12]);
    Base256Of4(b[..4]);
    Base256Of2(b[4..6]);
    Base256Of4(b[6..10]);
    Base256Of2(b[10..12]);
  }

  /** The header's bytes are determined by what they are worth. */
  lemma WireFields(buf: seq<byte>, f: Frame)
    requires OnTheWire(buf, f)
    ensures buf[..4] == BE32((12 + |f.body|) % 0x1_0000_0000)
    ensures buf[4..6] == BE16(f.msgId) && buf[6..10] == BE32(f.sequence) && buf[10..12] == BE16(f.errCode)
  {
    hide BE16, BE32, Num16, Num32, Base256;
    Base256Of4(buf[..4]);
    Base256Of2(buf[4..6]);
    Base256Of4(buf[6..10]);
    Base256Of2(buf[10..12]);
    Numbers32(0, buf[..4]);
    Numbers16(0, buf[4..6]);
    Numbers32(0, buf[6..10]);
    Numbers16(0, buf[10..12]);
  }

  /** What is wrong with the data, if anything, by its size and the length it states: at most 64 KB with the header. */
  function Fault(data: seq<byte>): Option<Error> {
    if |data| < 12 then Some(TooShort)
    else if Base256(data[..4]) < 12 || Base256(data[..4]) > 65536 then Some(InvalidLength)
    else if Base256(data[..4]) > |data| then Some(Incomplete)
    else None
  }

  /** Decoding accepts exactly data without a fault, and then gives the frame that is on the wire at its head. */
  lemma DecodeIff(data: seq<byte>, f: Frame)
    ensures Decode(data) == Success(f) <==>
            Fault(data).None? && OnTheWire(data[..Base256(data[..4])], f)
    ensures Decode(data).Failure? <==> Fault(data).Some?
    ensures Fault(data).Some? ==> Decode(data) == Failure(Fault(data).value)
  {
    hide BE16, BE32, Num16, Num32, Base256, FieldsOf, Encode, OnTheWire;
    if |data| >= 12 {
      Base256Of4(data[..4]);
      if Fault(data).None? {
        EncodeDecoded(data);
        EncodeIff(Decode(data).value, data[..LengthField(data)]);
        if OnTheWire(data[..LengthField(data)], f) {
          EncodeIff(f, data[..LengthField(data)]);
          WireLength(data, f);
          DecodeEncoded(f, data[LengthField(data)..]);
          assert data == data[..LengthField(data)] + data[LengthField(data)..];
        }
      }
    }
  }

  /** A frame with a body of two bytes, byte by byte. */
  lemma WireExample()
    ensures Encode(Frame(0x0102, 7, 3, [8, 9])) == [0, 0, 0, 14, 1, 2, 0, 0, 0, 7, 0, 3, 8, 9]
  {}

  lemma WireLength(data: seq<byte>, f: Frame)
    requires Fault(data).None? && OnTheWire(data[..Base256(data[..4])], f)
    ensures f.Fits()
  {}

  /** A packet as an object that is marshalled from and unmarshalled into. */
  class Packet {
    var msgId: uint16
    var sequence: uint32
    var errCode: uint16
    var body: seq<byte>

    constructor (f: Frame)
      ensures Value() == f
    {
      msgId, sequence, errCode, body := f.msgId, f.sequence, f.errCode, f.body;
    }

    function Value(): Frame
      reads this
    {
      Frame(msgId, sequence, errCode, body)
    }

    method Marshal() returns (buf: array<byte>)
      ensures fresh(buf) && buf[..] == Encode(Value())
      ensures OnTheWire(buf[..], Value())
    {
      hide OnTheWire;
      EncodeIff(Value(), Encode(Value()));
      var totalLen := HEADER_SIZE + |body|;
      buf := new byte[totalLen];
      ghost var whole := Encode(Value());
      var header := BE32(totalLen % 0x1_0000_0000) + BE16(msgId) + BE32(sequence) + BE16(errCode);
      for k := 0 to HEADER_SIZE
        invariant buf[..k] == header[..k]
      {
        buf[k] := header[k];
      }
      for k := 0 to |body|
        invariant buf[..HEADER_SIZE + k] == header + body[..k]
      {
        buf[HEADER_SIZE + k] := body[k];
      }
      assert buf[..] == buf[..HEADER_SIZE + |body|] == header + body;
    }

    /** Takes over the frame at the head of data, or reports why not and changes nothing. */
    method Unmarshal(data: seq<byte>) returns (err: Option<Error>)
      modifies this
      ensures Decode(data).Success? ==> err == None && Value() == Decode(data).value
      ensures Decode(data).Failure? ==> err == Some(Decode(data).error) && Value() == old(Value())
      ensures err == Fault(data)
      ensures err == None ==> OnTheWire(data[..Base256(data[..4])], Value())
    {
      hide OnTheWire, Base256;
      ghost var f := if Decode(data).Success? then Decode(data).value else Value();
      DecodeIff(data, f);
      if |data| < HEADER_SIZE {
        return Some(TooShort);
      }
      var totalLen := Num32(data[..4]);
      if totalLen < HEADER_SIZE || totalLen > MAX_PACKET_SIZE {
        return Some(InvalidLength);
      }
      if totalLen > |data| {
        return Some(Incomplete);
      }
      msgId := Num16(data[4..6]);
      sequence := Num32(data[6..10]);
      errCode := Num16(data[10..12]);
      var bodyLen := totalLen - HEADER_SIZE;
      if bodyLen > 0 {
        body := data[12..12 + bodyLen];
      } else {
        body := [];
      }
      return None;
    }
  }
}
