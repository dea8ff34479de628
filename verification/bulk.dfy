/** A file over its own connection: cut into chunks, sealed, framed, and received
    whole or not at all. */
module BulkChannel {
  import opened Wrappers

  type Byte = x: int | 0 <= x < 256
  type Bytes = seq<Byte>

  const CHUNK: nat := 64 * 1024
  const MAX_FRAME: nat := CHUNK + 64
  const TAG: nat := 16

  // -------------------------------------------------------------- big-endian numbers

  /** `n` in `width` bytes, most significant first. */
  function BigEndian(n: nat, width: nat): (b: Bytes)
    ensures |b| == width
  {
    if width == 0 then [] else BigEndian(n / 256, width - 1) + [n % 256]
  }

  function Number(b: Bytes): nat {
    if b == [] then 0 else Number(b[..|b| - 1]) * 256 + b[|b| - 1]
  }

  function Power(width: nat): nat {
    if width == 0 then 1 else 256 * Power(width - 1)
  }

  lemma {:induction false} NumberOfBigEndian(n: nat, width: nat)
    requires n < Power(width)
    ensures Number(BigEndian(n, width)) == n
  {
    if width > 0 {
      var b := BigEndian(n, width);
      assert b[..width - 1] == BigEndian(n / 256, width - 1);
      NumberOfBigEndian(n / 256, width - 1);
    }
  }

  lemma {:induction false} BigEndianOfNumber(b: Bytes)
    ensures BigEndian(Number(b), |b|) == b && Number(b) < Power(|b|)
  {
    if b != [] {
      BigEndianOfNumber(b[..|b| - 1]);
      assert Number(b) / 256 == Number(b[..|b| - 1]) && Number(b) % 256 == b[|b| - 1];
      assert b == b[..|b| - 1] + [b[|b| - 1]];
    }
  }

  // ------------------------------------------------------------------- the greeting

  /** `ACRB`. */
  const MAGIC: Bytes := [65, 67, 82, 66]

  function Hello(transfer: nat): (b: Bytes)
    ensures |b| == 12
  {
    MAGIC + BigEndian(transfer, 8)
  }

  function ReadHello(b: Bytes): Option<nat>
    requires |b| == 12
  {
    if b[..4] != MAGIC then None else Some(Number(b[4..]))
  }

  /** A greeting names one transfer, and every greeting that is read is some
      transfer's. */
  lemma HelloRoundTrip(transfer: nat, b: Bytes)
    requires transfer < Power(8) && |b| == 12
    ensures ReadHello(b) == Some(transfer) <==> b == Hello(transfer)
  {
    NumberOfBigEndian(transfer, 8);
    BigEndianOfNumber(b[4..]);
    assert b == b[..4] + b[4..];
    assert Hello(transfer)[..4] == MAGIC && Hello(transfer)[4..] == BigEndian(transfer, 8);
  }

  // ------------------------------------------------------------------- an ideal seal

  /** What the sender sealed under the transfer's key: `frames[i]` is the
      ciphertext of `chunks[i]` with number `i`. */
  datatype Sealing = Sealing(chunks: seq<Bytes>, frames: seq<Bytes>)

  /** Chunks as they are read from a file: none empty, none over the limit;
      a frame is a chunk and its tag. */
  predicate Proper(s: Sealing) {
    && |s.frames| == |s.chunks|
    && forall i :: 0 <= i < |s.chunks| ==>
         1 <= |s.chunks[i]| <= CHUNK && |s.frames[i]| == |s.chunks[i]| + TAG
  }

  /** Under an ideal cipher a frame opens only as what was sealed with that very
      number. */
  function Open(s: Sealing, number: nat, frame: Bytes): Option<Bytes>
    requires Proper(s)
  {
    if number < |s.frames| && s.frames[number] == frame then Some(s.chunks[number]) else None
  }

  function Join(chunks: seq<Bytes>): Bytes {
    if chunks == [] then [] else Join(chunks[..|chunks| - 1]) + chunks[|chunks| - 1]
  }

  // ------------------------------------------------------------------------ the wire

  function Framed(frame: Bytes): Bytes {
    BigEndian(|frame|, 4) + frame
  }

  function Wire(frames: seq<Bytes>): Bytes {
    if frames == [] then [] else Wire(frames[..|frames| - 1]) + Framed(frames[|frames| - 1])
  }

  datatype Trouble = TooBig(length: nat) | CutShort | WillNotOpen(number: nat) | TooMuch | TooLittle(written: nat)

  /** One frame off the front of a stream: nothing if it has ended, and a length
      cut short counts as an end. */
  datatype Next = Ended | Bad(why: Trouble) | Got(frame: Bytes, rest: Bytes)

  function ReadFrame(stream: Bytes): (r: Next)
    ensures r.Got? ==> |r.rest| < |stream| && stream == Framed(r.frame) + r.rest && |r.frame| <= MAX_FRAME
  {
    if |stream| < 4 then Ended
    else
      var n := Number(stream[..4]);
      BigEndianOfNumber(stream[..4]);
      if n > MAX_FRAME then Bad(TooBig(n))
      else if |stream| < 4 + n then Bad(CutShort)
      else
        assert stream == stream[..4] + stream[4..4 + n] + stream[4 + n..];
        Got(stream[4..4 + n], stream[4 + n..])
  }

  /** What a receiver that has written `done` in `number` chunks makes of the
      rest of the stream. */
  function ReceiveFrom(s: Sealing, stream: Bytes, number: nat, done: Bytes, size: nat): Result<Bytes, Trouble>
    requires Proper(s)
    decreases |stream|
  {
    var next := ReadFrame(stream);
    match next
    case Ended => if |done| == size then Ok(done) else Err(TooLittle(|done|))
    case Bad(why) => Err(why)
    case Got(frame, rest) =>
      var plain := Open(s, number, frame);
      if plain.None? then Err(WillNotOpen(number))
      else if |done| + |plain.value| > size then Err(TooMuch)
      else ReceiveFrom(s, rest, number + 1, done + plain.value, size)
  }

  function Received(s: Sealing, stream: Bytes, size: nat): Result<Bytes, Trouble>
    requires Proper(s)
  {
    ReceiveFrom(s, stream, 0, [], size)
  }

  // -------------------------------------------------------------------- in place

  /** The loop of both senders: greet, then frame what was sealed, chunk by
      chunk. */
  method Send(transfer: nat, s: Sealing) returns (stream: Bytes, sent: nat)
    requires Proper(s)
    ensures stream == Hello(transfer) + Wire(s.frames) && sent == |Join(s.chunks)|
  {
    stream, sent := Hello(transfer), 0;
    assert stream + [] == stream;
    for seqno := 0 to |s.chunks|
      invariant stream == Hello(transfer) + Wire(s.frames[..seqno])
      invariant sent == |Join(s.chunks[..seqno])|
    {
      assert s.frames[..seqno + 1][..seqno] == s.frames[..seqno] && s.chunks[..seqno + 1][..seqno] == s.chunks[..seqno];
      var frame := s.frames[seqno];
      stream := stream + BigEndian(|frame|, 4);
      stream := stream + frame;
      sent := sent + |s.chunks[seqno]|;
      assert Wire(s.frames[..seqno + 1]) == Wire(s.frames[..seqno]) + (BigEndian(|frame|, 4) + frame);
    }
    assert s.frames[..|s.chunks|] == s.frames && s.chunks[..|s.chunks|] == s.chunks;
  }

  /** A connection, read from the front. */
  class Stream {
    var rest: Bytes

    constructor (bytes: Bytes)
      ensures rest == bytes
    {
      rest := bytes;
    }

    /** Exactly `n` bytes; what there is of fewer is lost. */
    method ReadExact(n: nat) returns (r: Option<Bytes>)
      modifies this
      ensures if n <= |old(rest)| then r == Some(old(rest)[..n]) && rest == old(rest)[n..] else r == None && rest == []
    {
      if n <= |rest| {
        r := Some(rest[..n]);
        rest := rest[n..];
      } else {
        r, rest := None, [];
      }
    }

    method NextFrame() returns (r: Next)
      modifies this
      ensures r == ReadFrame(old(rest)) && (r.Got? ==> rest == r.rest)
    {
      var length := ReadExact(4);
      if length.None? { return Ended; }
      var n := Number(length.value);
      if n > MAX_FRAME { return Bad(TooBig(n)); }
      ghost var body := rest;
      var frame := ReadExact(n);
      if frame.None? { return Bad(CutShort); }
      assert frame.value == old(rest)[4..4 + n] && rest == old(rest)[4 + n..];
      return Got(frame.value, rest);
    }
  }

  /** The destination and the temporary beside it. */
  class Disk {
    var dest: Option<Bytes>
    var part: Option<Bytes>

    constructor (dest: Option<Bytes>)
      ensures this.dest == dest && part == None
    {
      this.dest, part := dest, None;
    }

    /** What either receiver leaves behind. */
    ghost predicate Outcome(before: Option<Bytes>, r: Result<nat, Trouble>, whole: Result<Bytes, Trouble>)
      reads this
    {
      && part == None
      && (whole.Ok? ==> r == Ok(|whole.value|) && dest == Some(whole.value))
      && (whole.Err? ==> r == Err(whole.error) && dest == before)
    }

    /** Keep the temporary, or drop it. */
    method Settle(outcome: Result<nat, Trouble>)
      requires part.Some?
      modifies this
      ensures part == None && dest == if outcome.Ok? then old(part) else old(dest)
    {
      if outcome.Ok? { dest := part; }
      part := None;
    }

    /** The async receiver. */
    method Receive(s: Sealing, bytes: Bytes, size: nat) returns (r: Result<nat, Trouble>)
      requires Proper(s)
      modifies this
      ensures Outcome(old(dest), r, Received(s, bytes, size))
    {
      var stream := new Stream(bytes);
      var file: Bytes, number, written := [], 0, 0;
      part := Some(file);
      var next := stream.NextFrame();
      while next.Got?
        invariant part == Some(file) && written == |file| && dest == old(dest)
        invariant next.Got? ==> stream.rest == next.rest
        invariant Received(s, bytes, size) == match next
          case Ended => if written == size then Ok(file) else Err(TooLittle(written))
          case Bad(why) => Err(why)
          case Got(frame, rest) =>
            (var plain := Open(s, number, frame);
             if plain.None? then Err(WillNotOpen(number))
             else if written + |plain.value| > size then Err(TooMuch)
             else ReceiveFrom(s, rest, number + 1, file + plain.value, size))
        decreases if next.Got? then |next.rest| + 1 else 0
      {
        var plain := Open(s, number, next.frame);
        if plain.None? {
          r := Err(WillNotOpen(number));
          Settle(r);
          return;
        }
        number, written := number + 1, written + |plain.value|;
        if written > size {
          r := Err(TooMuch);
          Settle(r);
          return;
        }
        file := file + plain.value;
        part := Some(file);
        next := stream.NextFrame();
      }
      r := if next.Bad? then Err(next.why) else if written != size then Err(TooLittle(written)) else Ok(written);
      Settle(r);
    }

    /** The blocking receiver: the frame is read inside the loop. */
    method ReceiveBlocking(s: Sealing, bytes: Bytes, size: nat) returns (r: Result<nat, Trouble>)
      requires Proper(s)
      modifies this
      ensures Outcome(old(dest), r, Received(s, bytes, size))
    {
      var stream := new Stream(bytes);
      var file: Bytes, number, written := [], 0, 0;
      part := Some(file);
      while true
        invariant part == Some(file) && written == |file| && dest == old(dest)
        invariant Received(s, bytes, size) == ReceiveFrom(s, stream.rest, number, file, size)
        decreases |stream.rest|
      {
        ghost var before := stream.rest;
        var length := stream.ReadExact(4);
        if length.None? { break; }
        var n := Number(length.value);
        if n > MAX_FRAME {
          r := Err(TooBig(n));
          Settle(r);
          return;
        }
        var frame := stream.ReadExact(n);
        if frame.None? {
          r := Err(CutShort);
          Settle(r);
          return;
        }
        assert ReadFrame(before) == Got(frame.value, stream.rest) by {
          assert frame.value == before[4..4 + n] && stream.rest == before[4 + n..];
        }
        var plain := Open(s, number, frame.value);
        if plain.None? {
          r := Err(WillNotOpen(number));
          Settle(r);
          return;
        }
        number, written := number + 1, written + |plain.value|;
        if written > size {
          r := Err(TooMuch);
          Settle(r);
          return;
        }
        file := file + plain.value;
        part := Some(file);
      }
      r := if written != size then Err(TooLittle(written)) else Ok(written);
      Settle(r);
    }
  }

  // ---------------------------------------------------------------------- proofs

  lemma {:induction false} JoinGrows(chunks: seq<Bytes>, n: nat)
    requires n <= |chunks| && forall i :: 0 <= i < |chunks| ==> chunks[i] != []
    ensures |Join(chunks[..n])| <= |Join(chunks)|
    ensures n < |chunks| ==> |Join(chunks[..n])| < |Join(chunks)|
  {
    if n < |chunks| {
      var front := chunks[..|chunks| - 1];
      JoinGrows(front, n);
      assert front[..n] == chunks[..n];
    } else {
      assert chunks[..n] == chunks;
    }
  }

  lemma {:induction false} WireConcat(a: seq<Bytes>, b: seq<Bytes>)
    ensures Wire(a + b) == Wire(a) + Wire(b)
  {
    if b == [] {
      assert a + b == a;
    } else {
      assert (a + b)[..|a + b| - 1] == a + b[..|b| - 1];
      WireConcat(a, b[..|b| - 1]);
    }
  }

  lemma WireFrom(frames: seq<Bytes>, n: nat)
    requires n < |frames|
    ensures Wire(frames[n..]) == Framed(frames[n]) + Wire(frames[n + 1..])
  {
    var one := [frames[n]];
    assert frames[n..] == one + frames[n + 1..];
    WireConcat(one, frames[n + 1..]);
    assert one[..|one| - 1] == [];
  }

  lemma ReadBack(frame: Bytes, rest: Bytes)
    requires |frame| <= MAX_FRAME
    ensures ReadFrame(Framed(frame) + rest) == Got(frame, rest)
  {
    var stream := Framed(frame) + rest;
    assert Power(4) == 0x1_0000_0000;
    NumberOfBigEndian(|frame|, 4);
    assert stream[..4] == BigEndian(|frame|, 4);
    assert stream[4..4 + |frame|] == frame && stream[4 + |frame|..] == rest;
  }

  /** The next frame of the honest stream is accepted. */
  lemma NextCompletes(s: Sealing, n: nat, tail: Bytes)
    requires Proper(s) && n < |s.chunks|
    ensures var size := |Join(s.chunks)|;
      ReceiveFrom(s, Wire(s.frames[n..]) + tail, n, Join(s.chunks[..n]), size)
        == ReceiveFrom(s, Wire(s.frames[n + 1..]) + tail, n + 1, Join(s.chunks[..n + 1]), size)
  {
    WireFrom(s.frames, n);
    var rest := Wire(s.frames[n + 1..]) + tail;
    assert Wire(s.frames[n..]) + tail == Framed(s.frames[n]) + rest;
    ReadBack(s.frames[n], rest);
    assert s.chunks[..n + 1][..n] == s.chunks[..n];
    JoinGrows(s.chunks, n + 1);
  }

  /** From number `n` on, the rest of the honest stream completes the file. */
  lemma {:induction false} RestCompletes(s: Sealing, n: nat, tail: Bytes)
    requires Proper(s) && n <= |s.chunks| && |tail| < 4
    ensures ReceiveFrom(s, Wire(s.frames[n..]) + tail, n, Join(s.chunks[..n]), |Join(s.chunks)|) == Ok(Join(s.chunks))
    decreases |s.chunks| - n
  {
    if n == |s.chunks| {
      assert s.chunks[..n] == s.chunks && s.frames[n..] == [];
      assert Wire([]) + tail == tail;
    } else {
      RestCompletes(s, n + 1, tail);
      NextCompletes(s, n, tail);
    }
  }

  /** A frame that is accepted is the next of the honest stream. */
  lemma AcceptedIsNext(s: Sealing, stream: Bytes, n: nat)
    requires Proper(s) && n <= |s.chunks| && !ReadFrame(stream).Ended?
    requires ReceiveFrom(s, stream, n, Join(s.chunks[..n]), |Join(s.chunks)|).Ok?
    ensures n < |s.chunks| && ReadFrame(stream).Got?
    ensures stream == Framed(s.frames[n]) + ReadFrame(stream).rest
    ensures ReceiveFrom(s, stream, n, Join(s.chunks[..n]), |Join(s.chunks)|)
      == ReceiveFrom(s, ReadFrame(stream).rest, n + 1, Join(s.chunks[..n + 1]), |Join(s.chunks)|)
  {
    var next := ReadFrame(stream);
    assert next.Got? && n < |s.chunks| && next.frame == s.frames[n];
    assert s.chunks[..n + 1][..n] == s.chunks[..n];
  }

  /** Success means: from here on the stream was exactly the rest of the honest
      one, but for a few bytes too short to be a length. */
  lemma {:induction false} SuccessIsHonest(s: Sealing, stream: Bytes, n: nat)
    requires Proper(s) && n <= |s.chunks|
    requires ReceiveFrom(s, stream, n, Join(s.chunks[..n]), |Join(s.chunks)|).Ok?
    ensures ReceiveFrom(s, stream, n, Join(s.chunks[..n]), |Join(s.chunks)|) == Ok(Join(s.chunks))
    ensures Wire(s.frames[n..]) <= stream && |stream| < |Wire(s.frames[n..])| + 4
    decreases |stream|
  {
    var next := ReadFrame(stream);
    if next.Ended? {
      JoinGrows(s.chunks, n);
      assert n == |s.chunks| && s.chunks[..n] == s.chunks && s.frames[n..] == [];
    } else {
      AcceptedIsNext(s, stream, n);
      SuccessIsHonest(s, next.rest, n + 1);
      WireFrom(s.frames, n);
    }
  }

  // ------------------------------------------------------------- the theorems

  /** A stream that is the honest one, but for what follows it. */
  predicate Honest(s: Sealing, stream: Bytes) {
    Wire(s.frames) <= stream && |stream| < |Wire(s.frames)| + 4
  }

  lemma HonestIsReceived(s: Sealing, stream: Bytes)
    requires Proper(s) && Honest(s, stream)
    ensures Received(s, stream, |Join(s.chunks)|) == Ok(Join(s.chunks))
  {
    var tail := stream[|Wire(s.frames)|..];
    assert s.frames[0..] == s.frames && s.chunks[..0] == [];
    assert stream == Wire(s.frames) + tail;
    RestCompletes(s, 0, tail);
  }

  lemma ReceivedIsHonest(s: Sealing, stream: Bytes)
    requires Proper(s) && Received(s, stream, |Join(s.chunks)|).Ok?
    ensures Honest(s, stream)
  {
    assert s.frames[0..] == s.frames && s.chunks[..0] == [];
    SuccessIsHonest(s, stream, 0);
  }

  /** All or nothing: when the size offered is the file's, a stream of any bytes
      is received if and only if it is the honest one (but for at most three
      bytes after it), and then what is received is the file, byte for byte. */
  lemma AllOrNothing(s: Sealing, file: Bytes, stream: Bytes)
    requires Proper(s) && Join(s.chunks) == file
    ensures Received(s, stream, |file|).Ok? <==> Honest(s, stream)
    ensures Received(s, stream, |file|).Ok? ==> Received(s, stream, |file|) == Ok(file)
  {
    if Received(s, stream, |file|).Ok? { ReceivedIsHonest(s, stream); }
    if Honest(s, stream) { HonestIsReceived(s, stream); }
  }

  /** The first `n` chunks, and what they come to. */
  predicate FirstChunks(s: Sealing, n: nat, file: Bytes) {
    n <= |s.chunks| && file == Join(s.chunks[..n])
  }

  lemma {:induction false} SuccessIsChunks(s: Sealing, stream: Bytes, n: nat, size: nat) returns (last: nat)
    requires Proper(s) && n <= |s.chunks| && ReceiveFrom(s, stream, n, Join(s.chunks[..n]), size).Ok?
    ensures FirstChunks(s, last, ReceiveFrom(s, stream, n, Join(s.chunks[..n]), size).value)
    ensures |ReceiveFrom(s, stream, n, Join(s.chunks[..n]), size).value| == size
    decreases |stream|
  {
    var next := ReadFrame(stream);
    if next.Ended? {
      last := n;
    } else {
      assert s.chunks[..n + 1][..n] == s.chunks[..n];
      last := SuccessIsChunks(s, next.rest, n + 1, size);
    }
  }

  /** Whatever size was offered, and whatever the stream: what is received is of
      exactly that size, and the first chunks of the file in order. */
  lemma NothingButTheFile(s: Sealing, stream: Bytes, size: nat)
    requires Proper(s) && Received(s, stream, size).Ok?
    ensures |Received(s, stream, size).value| == size
    ensures exists n :: FirstChunks(s, n, Received(s, stream, size).value)
  {
    assert s.chunks[..0] == [];
    var n := SuccessIsChunks(s, stream, 0, size);
  }

  /** A file sent is the file received, by either receiver, over what either
      held before. */
  method Transfer(transfer: nat, s: Sealing, file: Bytes, before: Option<Bytes>) returns (there: Disk, alsoThere: Disk)
    requires Proper(s) && Join(s.chunks) == file && transfer < Power(8)
    ensures there.dest == Some(file) && alsoThere.dest == Some(file) && there.part == None == alsoThere.part
  {
    var bytes, sent := Send(transfer, s);
    var greeting, rest := bytes[..12], bytes[12..];
    assert greeting == Hello(transfer) && rest == Wire(s.frames);
    HelloRoundTrip(transfer, greeting);
    assert ReadHello(greeting) == Some(transfer);
    AllOrNothing(s, file, rest);
    there := new Disk(before);
    var r := there.Receive(s, rest, |file|);
    alsoThere := new Disk(before);
    var q := alsoThere.ReceiveBlocking(s, rest, |file|);
  }
}
