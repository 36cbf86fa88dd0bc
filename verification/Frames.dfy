/** Length-prefixed frames over byte streams that may read short, be interrupted, or fail. */
module Frames {
  import opened Bytes
  import opened Text
  import opened BridgeValue
  import opened Options
  import opened Protocol

  const MAX_FRAME_BYTES: nat := 16 * 1024 * 1024

  // ---------------------------------------------------------------- frames as bytes

  /** The frame of a message, unless it cannot be encoded or is too large. */
  function FrameOf(m: Message): Option<seq<byte>> {
    match MessageToWire(m)
    case None => None
    case Some(body) =>
      if |body| == 0 || |body| > MAX_FRAME_BYTES then None else Some(Length(|body|) + body)
  }

  datatype FrameRead = CleanEnd | Frame(message: Message, rest: seq<byte>) | Broken

  /** What one `read_frame` finds at the head of a byte stream. */
  function FirstFrame(s: seq<byte>): FrameRead {
    if s == [] then CleanEnd
    else if |s| < 4 then Broken
    else
      var n := ReadU32(s[..4]);
      if n == 0 || n > MAX_FRAME_BYTES || |s| - 4 < n then Broken
      else
        match MessageFromWire(s[4..4 + n])
        case None => Broken
        case Some(m) => Frame(m, s[4 + n..])
  }

  /** All frames of a stream, and whether it ended on a frame boundary. */
  function AllFrames(s: seq<byte>): (seq<Message>, bool)
    decreases |s|
  {
    match FirstFrame(s)
    case CleanEnd => ([], true)
    case Broken => ([], false)
    case Frame(m, rest) =>
      var (more, clean) := AllFrames(rest);
      ([m] + more, clean)
  }

  lemma FramesUnfold(s: seq<byte>)
    ensures FirstFrame(s).CleanEnd? ==> s == [] && AllFrames(s) == ([], true)
    ensures FirstFrame(s).Broken? ==> AllFrames(s) == ([], false)
    ensures FirstFrame(s).Frame? ==>
              && ValidMessage(FirstFrame(s).message) && |FirstFrame(s).rest| < |s|
              && AllFrames(s).0 == [FirstFrame(s).message] + AllFrames(FirstFrame(s).rest).0
              && AllFrames(s).1 == AllFrames(FirstFrame(s).rest).1
  {
    hide FromBigEndian, Blank, Scanned, ValidUtf8;
  }

  /** A stream starts with a frame exactly when it starts with a length of four bytes, most significant first,
      that is neither zero nor over sixteen mebibytes, and a message of that length. */
  lemma FrameMeans(s: seq<byte>, m: Message, rest: seq<byte>)
    ensures FirstFrame(s) == Frame(m, rest) <==>
              exists body: seq<byte> ::
                0 < |body| <= 16_777_216 && s == U32(|body|) + body + rest && MessageFromWire(body) == Some(m)
    ensures FirstFrame(s) == CleanEnd <==> s == []
  {
    hide MessageFromWire, BigEndian, FromBigEndian;
    if FirstFrame(s) == Frame(m, rest) {
      var n := ReadU32(s[..4]);
      WordBytesRoundTrip(s[..4], U64(0));
      assert s == U32(n) + s[4..4 + n] + s[4 + n..];
    }
    if body: seq<byte> :|
        0 < |body| <= 16_777_216 && s == U32(|body|) + body + rest && MessageFromWire(body) == Some(m) {
      WordsRoundTrip(|body|, 0, 0);
      assert s[..4] == U32(|body|) && s[4..4 + |body|] == body && s[4 + |body|..] == rest;
    }
  }

  predicate IsFrameable(m: Message) { ValidMessage(m) && FrameOf(m).Some? }

  predicate Frameable(ms: seq<Message>) { forall m :: m in ms ==> IsFrameable(m) }

  function FrameBytes(m: Message): seq<byte> {
    match FrameOf(m)
    case Some(bytes) => bytes
    case None => []
  }

  function Stream(ms: seq<Message>): seq<byte> {
    if ms == [] then [] else FrameBytes(ms[0]) + Stream(ms[1..])
  }

  /** A written frame reads back as its message and leaves what follows. */
  lemma FrameReadsBack(m: Message, rest: seq<byte>)
    requires IsFrameable(m)
    ensures FirstFrame(FrameBytes(m) + rest) == Frame(m, rest) && |FrameBytes(m)| > 4
  {
    hide MessageToWire, MessageFromWire, ValidMessage, BigEndian, FromBigEndian;
    var body := MessageToWire(m).value;
    var s := FrameBytes(m) + rest;
    assert s[..4] == Length(|body|) && s[4..4 + |body|] == body && s[4 + |body|..] == rest;
    WordsRoundTrip(|body|, 0, 0);
    MessageRoundTrip(m);
  }

  /** A proper, nonempty piece of a frame is an error, never a clean end and never a message. */
  lemma CutFrameIsBroken(m: Message, n: nat)
    requires IsFrameable(m) && 0 < n < |FrameBytes(m)|
    ensures FirstFrame(FrameBytes(m)[..n]) == Broken
  {
    hide MessageToWire, MessageFromWire, ValidMessage, BigEndian, FromBigEndian;
    var body := MessageToWire(m).value;
    var s := FrameBytes(m)[..n];
    if n >= 4 {
      assert s[..4] == Length(|body|);
      WordsRoundTrip(|body|, 0, 0);
    }
  }

  /** Reading back a stream of frames gives exactly the messages written, then a clean end. */
  lemma {:induction false} StreamReadsBack(ms: seq<Message>)
    requires Frameable(ms)
    ensures AllFrames(Stream(ms)) == (ms, true)
  {
    hide FirstFrame, FrameBytes, IsFrameable;
    if ms == [] {
      EmptyStreamIsClean();
    } else {
      FrameReadsBack(ms[0], Stream(ms[1..]));
      StreamReadsBack(ms[1..]);
      assert [ms[0]] + ms[1..] == ms;
    }
  }

  lemma EmptyStreamIsClean()
    ensures FirstFrame([]) == CleanEnd
  {
  }

  /** Any prefix of a stream yields its whole frames, and ends cleanly only on a frame boundary. */
  lemma {:induction false} PrefixReadsWholeFrames(ms: seq<Message>, n: nat) returns (k: nat)
    requires Frameable(ms) && n <= |Stream(ms)|
    ensures k <= |ms| && |Stream(ms[..k])| <= n && (k < |ms| ==> n < |Stream(ms[..k + 1])|)
    ensures AllFrames(Stream(ms)[..n]) == (ms[..k], n == |Stream(ms[..k])|)
  {
    hide FirstFrame, FrameBytes, IsFrameable;
    if ms == [] {
      k := 0;
      EmptyStreamIsClean();
      assert Stream(ms)[..n] == [];
    } else {
      FrameReadsBack(ms[0], []);
      if n < |FrameBytes(ms[0])| {
        k := PieceOfFirstFrame(ms, n);
      } else {
        var j := PrefixReadsWholeFrames(ms[1..], n - |FrameBytes(ms[0])|);
        k := j + 1;
        var cut := Stream(ms[1..])[..n - |FrameBytes(ms[0])|];
        assert Stream(ms)[..n] == FrameBytes(ms[0]) + cut;
        FrameReadsBack(ms[0], cut);
        StreamGrows(ms, j);
        if k < |ms| {
          StreamGrows(ms, k);
        }
      }
    }
  }

  lemma PieceOfFirstFrame(ms: seq<Message>, n: nat) returns (k: nat)
    requires Frameable(ms) && ms != [] && n < |FrameBytes(ms[0])|
    ensures k == 0 && |Stream(ms[..0])| == 0 && n < |Stream(ms[..1])| && n <= |Stream(ms)|
    ensures AllFrames(Stream(ms)[..n]) == ([], n == 0)
  {
    hide FirstFrame, FrameBytes, IsFrameable;
    k := 0;
    StreamGrows(ms, 0);
    assert Stream(ms)[..n] == FrameBytes(ms[0])[..n];
    EmptyStreamIsClean();
    if n > 0 {
      CutFrameIsBroken(ms[0], n);
    }
  }

  lemma StreamGrows(ms: seq<Message>, k: nat)
    requires k < |ms|
    ensures ms[..k + 1] == [ms[0]] + ms[1..][..k]
    ensures Stream(ms[..k + 1]) == FrameBytes(ms[0]) + Stream(ms[1..][..k])
  {
    hide FrameBytes;
    assert ms[..k + 1][1..] == ms[1..][..k];
  }

  // ---------------------------------------------------------------- readers

  /** What the next `read` or `write` call does before the stream behaves ideally. */
  datatype Event = Interrupt | Short(n: nat) | Fault

  datatype Chunk = Moved(data: seq<byte>) | Interrupted | Faulted

  class Reader {
    const data: seq<byte>
    var pos: nat
    var plan: seq<Event>

    constructor (data: seq<byte>, plan: seq<Event>)
      ensures this.data == data && this.plan == plan && pos == 0
    {
      this.data, this.plan, pos := data, plan, 0;
    }

    ghost function Rest(): seq<byte>
      reads this
    {
      if pos <= |data| then data[pos..] else []
    }

    /** One `read` into a buffer of `n` bytes; zero bytes mean the end of the data. */
    method Read(n: nat) returns (c: Chunk)
      requires pos <= |data| && n > 0
      modifies this
      ensures plan == if old(plan) == [] then [] else old(plan)[1..]
      ensures old(pos) <= pos <= |data| && pos <= old(pos) + n
      ensures c.Moved? ==> c.data == data[old(pos)..pos] && (pos == old(pos) ==> pos == |data|)
      ensures !c.Moved? ==> pos == old(pos) && old(plan) != []
      ensures Fault !in old(plan) ==> !c.Faulted? && Fault !in plan
    {
      var count := n;
      if plan != [] {
        var e := plan[0];
        plan := plan[1..];
        match e {
          case Interrupt => return Interrupted;
          case Fault => return Faulted;
          case Short(k) => count := if k == 0 then 1 else if k < n then k else n;
        }
      }
      if count > |data| - pos {
        count := |data| - pos;
      }
      c := Moved(data[pos..pos + count]);
      pos := pos + count;
    }

    /** The standard library's `read_exact`, with end of file told apart from faults. */
    method ReadExact(n: nat) returns (c: Option<seq<byte>>, fault: bool)
      requires pos <= |data|
      modifies this
      ensures old(pos) <= pos <= |data|
      ensures Fault !in old(plan) ==> !fault && Fault !in plan
      ensures !fault ==> (c.Some? <==> old(pos) + n <= |data|)
      ensures !fault && c.Some? ==> pos == old(pos) + n && c.value == data[old(pos)..pos]
    {
      var buffer: seq<byte> := [];
      while |buffer| < n
        invariant |buffer| <= n && old(pos) <= pos <= |data|
        invariant buffer == data[old(pos)..pos]
        invariant Fault !in old(plan) ==> Fault !in plan
        decreases |plan|, n - |buffer|
      {
        var chunk := Read(n - |buffer|);
        match chunk {
          case Moved(bytes) =>
            if bytes == [] {
              return None, false;
            }
            buffer := buffer + bytes;
          case Interrupted =>
          case Faulted => return None, true;
        }
      }
      c, fault := Some(buffer), false;
    }

    /** The first byte of a header, or a clean end; an interrupted read is tried again. */
    method ReadFirst() returns (c: Option<seq<byte>>, fault: bool)
      requires pos <= |data|
      modifies this
      ensures old(pos) <= pos <= |data|
      ensures Fault !in old(plan) ==> !fault && Fault !in plan
      ensures !fault ==> (c.Some? <==> old(pos) < |data|)
      ensures !fault && c.Some? ==> pos == old(pos) + 1 && c.value == data[old(pos)..pos]
      ensures !fault && c.None? ==> pos == old(pos)
    {
      while true
        invariant pos == old(pos)
        invariant Fault !in old(plan) ==> Fault !in plan
        decreases |plan|
      {
        var chunk := Read(1);
        match chunk {
          case Moved(bytes) =>
            c := if bytes == [] then None else Some(bytes);
            return c, false;
          case Interrupted =>
          case Faulted => return None, true;
        }
      }
    }

    /** `read_frame`: whatever the schedule of short reads and interrupts, the first frame of the bytes. */
    method ReadFrame() returns (r: FrameResult)
      requires pos <= |data|
      modifies this
      ensures old(pos) <= pos <= |data|
      ensures Fault !in old(plan) ==> r != IoError && Fault !in plan
      ensures r != IoError ==>
        match FirstFrame(old(Rest()))
        case CleanEnd => r == EndOfStream && Rest() == []
        case Frame(m, rest) => r == Received(m) && Rest() == rest
        case Broken => r == InvalidData
    {
      hide MessageFromWire, FromBigEndian;
      ghost var start, s := pos, data[pos..];
      assert s == Rest();
      var first, fault := ReadFirst();
      if fault { return IoError; }
      if first.None? { return EndOfStream; }
      var more, headFault := ReadExact(3);
      if headFault { return IoError; }
      if more.None? { return InvalidData; }
      var header := first.value + more.value;
      assert header == s[..4];
      var n := ReadU32(header);
      if n == 0 || n > MAX_FRAME_BYTES { return InvalidData; }
      var body, bodyFault := ReadExact(n);
      if bodyFault { return IoError; }
      if body.None? { return InvalidData; }
      assert pos == start + 4 + n && |s| >= 4 + n;
      assert body.value == data[start + 4..start + 4 + n] == s[4..4 + n];
      assert Rest() == data[start + 4 + n..] == s[4 + n..];
      match MessageFromWire(body.value) {
        case None => r := InvalidData;
        case Some(m) => r := Received(m);
      }
    }

    /** All frames to the end: under any schedule without a fault exactly the messages of the bytes, and whether
        they ended on a frame boundary. */
    method ReadAll() returns (messages: seq<Message>, clean: bool, fault: bool)
      requires pos <= |data|
      modifies this
      ensures Fault !in old(plan) ==> !fault
      ensures !fault ==> (messages, clean) == AllFrames(old(Rest()))
      ensures messages <= AllFrames(old(Rest())).0
    {
      hide AllFrames, FirstFrame;
      messages := [];
      ghost var all := AllFrames(Rest());
      assert [] + all.0 == all.0;
      while true
        invariant pos <= |data| && (Fault !in old(plan) ==> Fault !in plan)
        invariant all == (messages + AllFrames(Rest()).0, AllFrames(Rest()).1)
        decreases |Rest()|
      {
        FramesUnfold(Rest());
        assert messages + [] == messages;
        var next := ReadFrame();
        match next {
          case EndOfStream => return messages, true, false;
          case InvalidData => return messages, false, false;
          case IoError => return messages, false, true;
          case Received(m) =>
            assert messages + ([m] + AllFrames(Rest()).0) == messages + [m] + AllFrames(Rest()).0;
            messages := messages + [m];
        }
      }
    }
  }

  datatype FrameResult = EndOfStream | Received(message: Message) | InvalidData | IoError

  // ---------------------------------------------------------------- writers

  class Writer {
    var written: seq<byte>
    var plan: seq<Event>

    constructor (plan: seq<Event>)
      ensures written == [] && this.plan == plan
    {
      written, this.plan := [], plan;
    }

    /** One `write` of a nonempty buffer: it may take only part of it. */
    method Write(bytes: seq<byte>) returns (c: Chunk)
      requires bytes != []
      modifies this
      ensures plan == if old(plan) == [] then [] else old(plan)[1..]
      ensures c.Moved? ==> c.data <= bytes && c.data != [] && written == old(written) + c.data
      ensures !c.Moved? ==> written == old(written) && old(plan) != []
      ensures Fault !in old(plan) ==> !c.Faulted? && Fault !in plan
    {
      var count := |bytes|;
      if plan != [] {
        var e := plan[0];
        plan := plan[1..];
        match e {
          case Interrupt => return Interrupted;
          case Fault => return Faulted;
          case Short(k) => count := if k == 0 then 1 else if k < |bytes| then k else |bytes|;
        }
      }
      c := Moved(bytes[..count]);
      written := written + bytes[..count];
    }

    /** The standard library's `write_all`. */
    method WriteAll(bytes: seq<byte>) returns (ok: bool)
      modifies this
      ensures ok ==> written == old(written) + bytes
      ensures !ok ==> exists n :: 0 <= n < |bytes| && written == old(written) + bytes[..n]
      ensures Fault !in old(plan) ==> ok && Fault !in plan
    {
      var done := 0;
      while done < |bytes|
        invariant 0 <= done <= |bytes| && written == old(written) + bytes[..done]
        invariant Fault !in old(plan) ==> Fault !in plan
        decreases |plan|, |bytes| - done
      {
        var chunk := Write(bytes[done..]);
        match chunk {
          case Moved(data) =>
            assert bytes[..done + |data|] == bytes[..done] + data;
            done := done + |data|;
          case Interrupted =>
          case Faulted => return false;
        }
      }
      ok := true;
    }

    /** `write_frame`: a rejected message puts no byte on the stream, a fault leaves a proper piece of the frame. */
    method WriteFrame(m: Message) returns (r: FrameWritten)
      modifies this
      ensures r == Rejected <==> FrameOf(m).None?
      ensures r == Rejected ==> written == old(written)
      ensures r == Written ==> written == old(written) + FrameOf(m).value
      ensures Fault !in old(plan) ==> r != WriteFault && Fault !in plan
      ensures r == WriteFault ==>
        exists n :: 0 <= n < |FrameOf(m).value| && written == old(written) + FrameOf(m).value[..n]
    {
      hide MessageToWire, BigEndian;
      var body := MessageToWire(m);
      if body.None? || |body.value| == 0 || |body.value| > MAX_FRAME_BYTES {
        return Rejected;
      }
      var header := Length(|body.value|);
      var sent := WriteAll(header);
      if !sent {
        ghost var n :| 0 <= n < |header| && written == old(written) + header[..n];
        assert FrameOf(m).value[..n] == header[..n];
        return WriteFault;
      }
      ghost var before := written;
      sent := WriteAll(body.value);
      if !sent {
        ghost var n :| 0 <= n < |body.value| && written == before + body.value[..n];
        assert FrameOf(m).value[..4 + n] == header + body.value[..n];
        assert written == old(written) + FrameOf(m).value[..4 + n];
        return WriteFault;
      }
      assert written == old(written) + FrameOf(m).value;
      r := Written;
    }
  }

  datatype FrameWritten = Written | Rejected | WriteFault
}
