/** Reading frames from a stream that delivers bytes in any pieces and may fail at any point. */
module PacketStream {
  import opened GoTypes
  import opened Packets

  // ---------------------------------------------------------------------
  // Parsing a whole stream at once
  // ---------------------------------------------------------------------

  datatype Next = NeedMore | Bad | Got(frame: Frame, rest: seq<byte>)

  /** What is at the head of the stream: a whole frame, the start of one, or a length that is not allowed. */
  function NextOf(s: seq<byte>): Next {
    match Decode(s)
    case Success(f) => Got(f, s[LengthField(s)..])
    case Failure(InvalidLength) => Bad
    case Failure(_) => NeedMore
  }

  /** All frames from the head on, and what is left when there is no further whole frame. */
  function ParseAll(s: seq<byte>): (seq<Frame>, seq<byte>)
    decreases |s|
  {
    match NextOf(s)
    case Got(f, rest) => var (fs, left) := ParseAll(rest); ([f] + fs, left)
    case _ => ([], s)
  }

  function Join(fs: seq<Frame>): seq<byte> {
    if fs == [] then [] else Encode(fs[0]) + Join(fs[1..])
  }

  ghost predicate AllFit(fs: seq<Frame>) {
    forall i | 0 <= i < |fs| :: fs[i].Fits()
  }

  lemma NextEncoded(f: Frame, t: seq<byte>)
    requires f.Fits()
    ensures NextOf(Encode(f) + t) == Got(f, t)
  {
    DecodeEncoded(f, t);
    EncodedParts(f, t);
  }

  lemma ParseOne(f: Frame, t: seq<byte>, s: seq<byte>)
    requires f.Fits() && s == Encode(f) + t
    ensures ParseAll(s) == ([f] + ParseAll(t).0, ParseAll(t).1)
  {
    NextEncoded(f, t);
  }

  lemma {:induction false} ParseJoined(fs: seq<Frame>, t: seq<byte>)
    requires AllFit(fs)
    ensures ParseAll(Join(fs) + t) == (fs + ParseAll(t).0, ParseAll(t).1)
  {
    hide ParseAll, Encode;
    if fs == [] {
      assert Join(fs) + t == t && fs + ParseAll(t).0 == ParseAll(t).0;
    } else {
      var t', more := Join(fs[1..]) + t, ParseAll(t).0;
      assert Join(fs) + t == Encode(fs[0]) + t';
      ParseOne(fs[0], t', Join(fs) + t);
      ParseJoined(fs[1..], t);
      assert [fs[0]] + (fs[1..] + more) == fs + more;
    }
  }

  /** Streams of frames are uniquely decodable: the bytes determine the list, and parsing recovers it. */
  lemma UniquelyDecodable(fs: seq<Frame>, gs: seq<Frame>)
    requires AllFit(fs) && AllFit(gs) && Join(fs) == Join(gs)
    ensures fs == gs && ParseAll(Join(fs)) == (fs, [])
  {
    ParseJoined(fs, []);
    ParseJoined(gs, []);
    assert Join(fs) + [] == Join(fs) && Join(gs) + [] == Join(gs);
    assert fs + [] == fs && gs + [] == gs;
  }

  // ---------------------------------------------------------------------
  // The byte source
  // ---------------------------------------------------------------------

  /** How one read goes: at most limit bytes, and whether it reports an error beside them. */
  datatype ReadPlan = ReadPlan(limit: nat, fails: bool)

  /** A source with the bytes still to come and any plan for delivering them; after the plan it only fails. */
  class Reader {
    var data: seq<byte>
    var plan: seq<ReadPlan>

    constructor (data: seq<byte>, plan: seq<ReadPlan>)
      ensures this.data == data && this.plan == plan
    {
      this.data, this.plan := data, plan;
    }

    /** Copies up to as many bytes as fit into buf from index at on. */
    method Read(buf: array<byte>, at: nat) returns (n: nat, failed: bool)
      requires at <= buf.Length
      modifies this, buf
      ensures at + n <= buf.Length && n <= |old(data)| && data == old(data)[n..]
      ensures buf[..at] == old(buf[..at]) && buf[at..at + n] == old(data)[..n]
      ensures !failed ==> |plan| < |old(plan)|
      ensures |plan| <= |old(plan)|
    {
      if plan == [] {
        return 0, true;
      }
      n, failed := plan[0].limit, plan[0].fails;
      n := if n > |data| then |data| else n;
      n := if n > buf.Length - at then buf.Length - at else n;
      plan := plan[1..];
      forall i | 0 <= i < n {
        buf[at + i] := data[i];
      }
      data := data[n..];
    }
  }

  /** Reads until min bytes have come or the source fails; enough bytes count as success. */
  method ReadAtLeast(reader: Reader, buf: array<byte>, min: nat) returns (n: nat, failed: bool)
    requires min <= buf.Length
    modifies reader, buf
    ensures n <= buf.Length && n <= |old(reader.data)| && reader.data == old(reader.data)[n..]
    ensures buf[..n] == old(reader.data)[..n]
    ensures failed <==> n < min
  {
    n, failed := 0, false;
    while n < min && !failed
      invariant n <= buf.Length && n <= |old(reader.data)| && reader.data == old(reader.data)[n..]
      invariant buf[..n] == old(reader.data)[..n]
      decreases |reader.plan|, !failed
    {
      var nn;
      nn, failed := reader.Read(buf, n);
      assert buf[..n + nn] == buf[..n] + buf[n..n + nn];
      n := n + nn;
    }
    failed := n < min;
  }

  // ---------------------------------------------------------------------
  // Reading one frame
  // ---------------------------------------------------------------------

  /**
   * One call of the reader: the remainder before, the bytes it took from the source, what it returned,
   * and the remainder after.
   */
  datatype Call = Call(before: seq<byte>, got: seq<byte>, outcome: Result<Frame, Error>, after: seq<byte>)

  /** No byte is lost or made up, and a frame is returned as soon as there is a whole one. */
  ghost predicate CallKeepsBytes(c: Call) {
    match c.outcome
    case Success(f) => f.Fits() && c.before + c.got == Encode(f) + c.after
    case Failure(e) =>
      c.before + c.got == c.after && (e == InvalidLength <==> NextOf(c.after).Bad?) && !NextOf(c.after).Got?
  }

  /** Nothing is read beyond the frame at the head, nor more than one frame is ever held. */
  ghost predicate CallReadsNoMore(c: Call) {
    && (c.got != [] ==> NextOf(c.before).NeedMore? && (c.outcome.Success? ==> c.after == []))
    && (|c.after| <= |c.before| || |c.after| < MAX_PACKET_SIZE)
  }

  /** Brings buf up to size bytes, unless the source fails first. */
  method Fill(reader: Reader, buf: seq<byte>, size: nat) returns (filled: seq<byte>, failed: bool, ghost got: seq<byte>)
    requires |buf| < size
    modifies reader
    ensures |got| <= |old(reader.data)| && got == old(reader.data)[..|got|] && reader.data == old(reader.data)[|got|..]
    ensures filled == buf + got && |filled| <= size
    ensures failed <==> |filled| < size
  {
    var need := size - |buf|;
    var tmp := new byte[need];
    var n;
    n, failed := ReadAtLeast(reader, tmp, need);
    got := tmp[..n];
    filled := buf + tmp[..n];
  }

  /** What has been read so far is needed to complete the frame at the head. */
  ghost predicate Needed(remain: seq<byte>, got: seq<byte>, buf: seq<byte>) {
    && buf == remain + got
    && (got != [] ==>
          && NextOf(remain).NeedMore?
          && (|buf| <= HEADER_SIZE || (ValidLength(LengthField(buf)) && |buf| <= LengthField(buf))))
  }

  lemma StuckCall(remain: seq<byte>, got: seq<byte>, buf: seq<byte>, e: Error)
    requires Needed(remain, got, buf)
    requires (e == ReadFailed && NextOf(buf).NeedMore?) || (e == InvalidLength && NextOf(buf).Bad?)
    ensures var c := Call(remain, got, Failure(e), buf); CallKeepsBytes(c) && CallReadsNoMore(c)
  {}

  lemma WholeCall(remain: seq<byte>, got: seq<byte>, buf: seq<byte>, n: nat)
    requires Needed(remain, got, buf) && |buf| >= HEADER_SIZE && n == LengthField(buf) && ValidLength(n) && n <= |buf|
    ensures Decode(buf[..n]) == Decode(buf) && Decode(buf).Success?
    ensures var c := Call(remain, got, Success(Decode(buf).value), buf[n..]); CallKeepsBytes(c) && CallReadsNoMore(c)
  {
    HeadDecides(buf, n);
    EncodeDecoded(buf);
    assert buf == buf[..n] + buf[n..];
  }

  lemma HeadDecides(buf: seq<byte>, n: nat)
    requires HEADER_SIZE <= n <= |buf| && LengthField(buf) == n && ValidLength(n)
    ensures Decode(buf[..n]) == Decode(buf)
  {
    var head := buf[..n];
    assert head[..4] == buf[..4] && head[4..6] == buf[4..6] && head[6..10] == buf[6..10];
    assert head[10..12] == buf[10..12] && head[12..n] == buf[12..n];
  }

  method PacketReader(reader: Reader, remain: seq<byte>)
    returns (pkt: Packet?, rest: seq<byte>, err: Option<Error>, ghost got: seq<byte>)
    modifies reader
    ensures |got| <= |old(reader.data)| && got == old(reader.data)[..|got|] && reader.data == old(reader.data)[|got|..]
    ensures pkt != null ==> fresh(pkt) && err == None
    ensures pkt == null ==> err.Some?
    ensures var c := Call(remain, got, if pkt != null then Success(pkt.Value()) else Failure(err.value), rest);
            CallKeepsBytes(c) && CallReadsNoMore(c)
  {
    hide CallKeepsBytes, CallReadsNoMore, Encode, FieldsOf, Num32, Fault, OnTheWire;
    var buf := remain;
    got := [];
    pkt := null;
    if |buf| < HEADER_SIZE {
      var failed;
      buf, failed, got := Fill(reader, buf, HEADER_SIZE);
      if failed {
        StuckCall(remain, got, buf, ReadFailed);
        return null, buf, Some(ReadFailed), got;
      }
    }
    assert Needed(remain, got, buf);
    var totalLen := Num32(buf[..4]);
    if totalLen < HEADER_SIZE || totalLen > MAX_PACKET_SIZE {
      StuckCall(remain, got, buf, InvalidLength);
      return null, buf, Some(InvalidLength), got;
    }
    if |buf| < totalLen {
      var failed;
      ghost var more;
      ghost var start := buf;
      buf, failed, more := Fill(reader, buf, totalLen);
      assert buf == remain + (got + more) && buf[..4] == start[..4];
      got := got + more;
      if failed {
        StuckCall(remain, got, buf, ReadFailed);
        return null, buf, Some(ReadFailed), got;
      }
    }
    WholeCall(remain, got, buf, totalLen);
    pkt := new Packet(Frame(0, 0, 0, []));
    err := pkt.Unmarshal(buf[..totalLen]);
    rest := buf[totalLen..];
  }

  // ---------------------------------------------------------------------
  // Sequences of calls
  // ---------------------------------------------------------------------

  /** Each call is given the remainder the one before it returned, whether or not that one failed. */
  ghost predicate Chain(calls: seq<Call>) {
    && (forall i | 0 <= i < |calls| :: CallKeepsBytes(calls[i]))
    && (forall i | 0 <= i < |calls| - 1 :: calls[i].after == calls[i + 1].before)
  }

  /** The frames a call returned: one or none. */
  ghost function FrameOf(c: Call): seq<Frame> {
    if c.outcome.Success? then [c.outcome.value] else []
  }

  /** The frames returned, in order. */
  ghost function Returned(calls: seq<Call>): seq<Frame> {
    if calls == [] then [] else Returned(calls[..|calls| - 1]) + FrameOf(calls[|calls| - 1])
  }

  /** The bytes taken from the source, in order. */
  ghost function Taken(calls: seq<Call>): seq<byte> {
    if calls == [] then [] else Taken(calls[..|calls| - 1]) + calls[|calls| - 1].got
  }

  /** Parsing from before a call gives its frame, if it returned one, and then parsing from after it. */
  lemma AfterOne(c: Call, later: seq<byte>)
    requires CallKeepsBytes(c)
    ensures var p := ParseAll(c.after + later); ParseAll(c.before + (c.got + later)) == (FrameOf(c) + p.0, p.1)
  {
    hide ParseAll, Encode, NextOf;
    var p := ParseAll(c.after + later);
    assert c.before + (c.got + later) == c.before + c.got + later;
    if c.outcome.Success? {
      var f := c.outcome.value;
      assert c.before + c.got + later == Encode(f) + (c.after + later);
      ParseOne(f, c.after + later, c.before + c.got + later);
    } else {
      assert [] + p.0 == p.0;
    }
  }

  /**
   * Reassembly does not depend on how the bytes arrive: however a stream is cut up and wherever reads
   * fail, parsing it at once gives the frames returned so far, and then what parsing the last remainder
   * and the bytes still to come gives.
   */
  lemma {:induction false} Reassembled(calls: seq<Call>, later: seq<byte>)
    requires calls != [] && Chain(calls)
    ensures var p := ParseAll(calls[|calls| - 1].after + later);
            ParseAll(calls[0].before + (Taken(calls) + later)) == (Returned(calls) + p.0, p.1)
  {
    hide ParseAll, Encode, CallKeepsBytes;
    var init, c := calls[..|calls| - 1], calls[|calls| - 1];
    var p := ParseAll(c.after + later);
    assert Taken(calls) + later == Taken(init) + (c.got + later);
    AfterOne(c, later);
    if init == [] {
      assert Taken(init) + (c.got + later) == c.got + later;
      assert Returned(calls) == FrameOf(c);
    } else {
      assert init[|init| - 1].after == c.before;
      Reassembled(init, c.got + later);
      assert Returned(init) + (FrameOf(c) + p.0) == Returned(calls) + p.0;
    }
  }

  /** A failed call leaves nothing to parse. */
  lemma NothingLeft(c: Call)
    requires CallKeepsBytes(c) && c.outcome.Failure?
    ensures ParseAll(c.after) == ([], c.after)
  {}

  /** So, up to a failure, the frames returned and the remainder are those of the stream parsed at once. */
  lemma ReassembledToFailure(calls: seq<Call>)
    requires calls != [] && Chain(calls) && calls[|calls| - 1].outcome.Failure?
    ensures ParseAll(calls[0].before + Taken(calls)) == (Returned(calls), calls[|calls| - 1].after)
  {
    hide ParseAll, Encode, NextOf;
    var last := calls[|calls| - 1];
    Reassembled(calls, []);
    NothingLeft(last);
    assert last.after + [] == last.after && Taken(calls) + [] == Taken(calls);
    assert Returned(calls) + [] == Returned(calls);
  }

  /** Hence two readings of the same bytes, each up to a failure, return the same frames and remainder. */
  lemma SameBytesSameFrames(a: seq<Call>, b: seq<Call>)
    requires a != [] && b != [] && Chain(a) && Chain(b)
    requires a[0].before + Taken(a) == b[0].before + Taken(b)
    requires a[|a| - 1].outcome.Failure? && b[|b| - 1].outcome.Failure?
    ensures Returned(a) == Returned(b) && a[|a| - 1].after == b[|b| - 1].after
  {
    ReassembledToFailure(a);
    ReassembledToFailure(b);
  }

  /** A frame takes bytes away for good; one read from an empty buffer leaves it empty. */
  lemma BufferAfter(c: Call)
    requires CallKeepsBytes(c) && CallReadsNoMore(c)
    ensures c.outcome.Success? ==> |c.after| < |c.before| + |c.got| && FrameOf(c) == [c.outcome.value]
    ensures c.outcome.Success? && c.before == [] ==> c.after == []
    ensures c.outcome.Failure? ==> FrameOf(c) == [] && (c.outcome.error == InvalidLength <==> NextOf(c.after).Bad?)
    ensures |c.after| <= |c.before| || |c.after| < MAX_PACKET_SIZE
  {}

  lemma NoCalls()
    ensures Chain([]) && Returned([]) == [] && Taken([]) == []
  {}

  lemma ChainGrows(calls: seq<Call>, c: Call)
    requires Chain(calls) && CallKeepsBytes(c) && (calls != [] ==> calls[|calls| - 1].after == c.before)
    ensures Chain(calls + [c])
  {
    hide CallKeepsBytes;
    var more := calls + [c];
    forall i | 0 <= i < |more| ensures CallKeepsBytes(more[i]) {
      assert more[i] == if i < |calls| then calls[i] else c;
    }
    forall i | 0 <= i < |more| - 1 ensures more[i].after == more[i + 1].before {
      if i + 1 < |calls| {
        assert more[i] == calls[i] && more[i + 1] == calls[i + 1];
      } else {
        assert more[i] == calls[|calls| - 1] && more[i + 1] == c;
      }
    }
  }

  lemma OneMoreCall(calls: seq<Call>, c: Call)
    requires Chain(calls) && CallKeepsBytes(c) && (calls != [] ==> calls[|calls| - 1].after == c.before)
    ensures Chain(calls + [c])
    ensures Returned(calls + [c]) == Returned(calls) + FrameOf(c) && Taken(calls + [c]) == Taken(calls) + c.got
  {
    hide Chain, CallKeepsBytes, FrameOf;
    ChainGrows(calls, c);
    assert (calls + [c])[..|calls|] == calls;
  }

  /**
   * The read loop of a connection: hands on frames until a read fails, a length is not allowed, or the channel
   * takes no more. The channel takes room frames before the connection is closed; the frame after those is
   * handed on, too. Started with nothing buffered, the loop holds nothing between frames.
   */
  method ReadLoop(reader: Reader, readBuf: seq<byte>, room: nat)
    returns (handled: seq<Frame>, buf: seq<byte>, err: Option<Error>, ghost got: seq<byte>)
    modifies reader
    ensures |got| <= |old(reader.data)| && got == old(reader.data)[..|got|] && reader.data == old(reader.data)[|got|..]
    ensures err.Some? ==> ParseAll(readBuf + got) == (handled, buf)
    ensures err.Some? ==> (err == Some(InvalidLength) <==> NextOf(buf).Bad?)
    ensures var p := ParseAll(buf + reader.data); ParseAll(readBuf + old(reader.data)) == (handled + p.0, p.1)
    ensures if err.Some? then |handled| <= room else |handled| == room + 1
    ensures err.None? && readBuf == [] ==> buf == []
    ensures |buf| <= |readBuf| || |buf| < MAX_PACKET_SIZE
  {
    hide ParseAll, Encode, NextOf, CallKeepsBytes, CallReadsNoMore, Chain, Returned, Taken, FrameOf;
    handled, buf, got, err := [], readBuf, [], None;
    ghost var calls: seq<Call> := [];
    NoCalls();
    ghost var source := reader.data;
    while true
      invariant |handled| <= room
      invariant |got| <= |source| && got == source[..|got|] && reader.data == source[|got|..]
      invariant Chain(calls) && Returned(calls) == handled && Taken(calls) == got
      invariant calls == [] ==> buf == readBuf
      invariant calls != [] ==> calls[0].before == readBuf && calls[|calls| - 1].after == buf
      invariant readBuf == [] ==> buf == []
      invariant |buf| <= |readBuf| || |buf| < MAX_PACKET_SIZE
      decreases room - |handled|
    {
      var pkt, remain, e, more := PacketReader(reader, buf);
      ghost var c := Call(buf, more, if pkt != null then Success(pkt.Value()) else Failure(e.value), remain);
      BufferAfter(c);
      OneMoreCall(calls, c);
      calls, got, buf := calls + [c], got + more, remain;
      Reassembled(calls, reader.data);
      assert got + reader.data == source;
      if pkt == null {
        assert handled + [] == handled;
        ReassembledToFailure(calls);
        return handled, buf, e, got;
      }
      handled := handled + [pkt.Value()];
      if |handled| > room {
        return;
      }
    }
  }

  /** Room of the channel that a connection puts its frames on. */
  const READ_CHANNEL_ROOM := 64

  /** Nothing takes frames from the channel of a connection of the server: so it handles 65 of them at most. */
  method ReadLoopUndrained(reader: Reader) returns (handled: seq<Frame>)
    modifies reader
    ensures |handled| <= READ_CHANNEL_ROOM + 1 && handled <= ParseAll(old(reader.data)).0
  {
    hide ParseAll;
    var buf, err;
    ghost var got;
    assert [] + reader.data == reader.data;
    handled, buf, err, got := ReadLoop(reader, [], READ_CHANNEL_ROOM);
  }
}
