/** The socket reader: length-prefixed payloads cut out of a byte stream that arrives in arbitrary chunks. */
module TelemetryReader {
  import opened Prelude
  import opened Wire

  const MAX_PAYLOAD := 1_000_000

  // ── What the loop computes from the whole input ─────────────────────────────

  /** The bytes of the first length-prefixed payload, if the loop would read it. */
  function FirstPayload(b: seq<byte>): (p: Option<seq<byte>>)
    ensures p.Some? ==> p.value != [] && 4 + |p.value| <= |b|
  {
    if |b| < 4 then None
    else
      var len := FromBE(b[..4]);
      if len == 0 || len > MAX_PAYLOAD || |b| < 4 + len then None else Some(b[4..4 + len])
  }

  function ReadAll(device: string, b: seq<byte>): seq<Frame>
    decreases |b|
  {
    match FirstPayload(b)
    case None => []
    case Some(p) =>
      var rest := ReadAll(device, b[4 + |p|..]);
      if Decode(p).Some? then [FrameOf(device, Decode(p).value)] + rest else rest
  }

  // ── The socket and the loop ─────────────────────────────────────────────────

  function Flatten(chunks: seq<seq<byte>>): seq<byte> {
    if chunks == [] then [] else chunks[0] + Flatten(chunks[1..])
  }

  class Socket {
    /** What the peer has yet to deliver before it closes, cut as it will arrive. */
    var chunks: seq<seq<byte>>

    constructor (chunks: seq<seq<byte>>)
      ensures this.chunks == chunks
    {
      this.chunks := chunks;
    }

    /** One read: at most `room` bytes of the next chunk; nothing only at the end of the stream. */
    method Read(room: nat) returns (got: seq<byte>)
      requires room > 0
      modifies this
      ensures |got| <= room
      ensures got + Flatten(chunks) == old(Flatten(chunks))
      ensures got == [] ==> Flatten(chunks) == []
    {
      while chunks != [] && chunks[0] == []
        invariant Flatten(chunks) == old(Flatten(chunks))
        decreases |chunks|
      {
        chunks := chunks[1..];
      }
      if chunks == [] {
        return [];
      }
      var n := if |chunks[0]| < room then |chunks[0]| else room;
      got := chunks[0][..n];
      assert chunks[0] == chunks[0][..n] + chunks[0][n..];
      chunks := [chunks[0][n..]] + chunks[1..];
    }

    /** Fills a buffer of `n` bytes, however the stream is cut, or fails when it ends first. */
    method ReadExact(n: nat) returns (r: Option<seq<byte>>)
      modifies this
      ensures r.Some? <==> n <= |old(Flatten(chunks))|
      ensures r.Some? ==> r.value == old(Flatten(chunks))[..n] && Flatten(chunks) == old(Flatten(chunks))[n..]
      ensures r.None? ==> Flatten(chunks) == []
    {
      var buf: seq<byte> := [];
      while |buf| < n
        invariant |buf| <= n
        invariant buf + Flatten(chunks) == old(Flatten(chunks))
        decreases n - |buf|
      {
        var got := Read(n - |buf|);
        if got == [] {
          return None;
        }
        buf := buf + got;
      }
      return Some(buf);
    }
  }

  /** Length prefix, the two length checks, then the payload. */
  method ReadPayload(socket: Socket) returns (p: Option<seq<byte>>)
    modifies socket
    ensures p == FirstPayload(old(Flatten(socket.chunks)))
    ensures var b := old(Flatten(socket.chunks));
            && (p.Some? <==> |b| >= 4 && 1 <= FromBE(b[..4]) <= 1_000_000 && |b| >= 4 + FromBE(b[..4]))
            && (p.Some? ==> p.value == b[4..4 + FromBE(b[..4])])
    ensures p.Some? ==> Flatten(socket.chunks) == old(Flatten(socket.chunks))[4 + |p.value|..]
    ensures |Flatten(socket.chunks)| <= |old(Flatten(socket.chunks))|
  {
    ghost var b := Flatten(socket.chunks);
    var prefix := socket.ReadExact(4);
    if prefix.None? {
      return None;
    }
    var len := FromBE(prefix.value);
    if len == 0 || len > MAX_PAYLOAD {
      return None;
    }
    p := socket.ReadExact(len);
    assert p.Some? ==> p.value == b[4..4 + len];
  }

  function Take(fs: seq<Frame>, n: nat): (t: seq<Frame>)
    ensures t <= fs && |t| == if n < |fs| then n else |fs|
  {
    if n < |fs| then fs[..n] else fs
  }

  /** One payload and the frame in it, if it parses; `more` is false when the loop has to end. */
  method ReadFrame(device: string, socket: Socket) returns (more: bool, frame: Option<Frame>)
    modifies socket
    ensures var b, rest := old(Flatten(socket.chunks)), Flatten(socket.chunks);
            if more then
              && |rest| + 5 <= |b|
              && ReadAll(device, b) == (if frame.Some? then [frame.value] else []) + ReadAll(device, rest)
            else ReadAll(device, b) == [] && |rest| <= |b|
  {
    var payload := ReadPayload(socket);
    if payload.None? {
      return false, None;
    }
    frame := ParseFrame(device, payload.value);
    more := true;
  }

  /**
   * The loop sends exactly the frames of the whole input, in order, until the channel (which takes `room`
   * frames) closes; `rounds` counts the iterations that went round, each of which used at least 5 bytes.
   */
  method RunFromSocket(device: string, socket: Socket, room: nat) returns (sent: seq<Frame>, rounds: nat)
    modifies socket
    ensures sent == Take(ReadAll(device, old(Flatten(socket.chunks))), room)
    ensures 5 * rounds <= |old(Flatten(socket.chunks))|
  {
    ghost var size, all := |Flatten(socket.chunks)|, ReadAll(device, Flatten(socket.chunks));
    ghost var rest := all;
    sent, rounds := [], 0;
    while true
      invariant |sent| <= room && rest == ReadAll(device, Flatten(socket.chunks))
      invariant sent + rest == all
      invariant 5 * rounds + |Flatten(socket.chunks)| <= size
      decreases |Flatten(socket.chunks)|
    {
      var more, frame := ReadFrame(device, socket);
      if !more {
        TakeAll(sent, room);
        break;
      }
      if frame.Some? {
        if |sent| == room {
          TakeFront(sent, rest);
          break;
        }
        MoveOne(sent, frame.value, ReadAll(device, Flatten(socket.chunks)));
        sent := sent + [frame.value];
      }
      rest := ReadAll(device, Flatten(socket.chunks));
      rounds := rounds + 1;
    }
  }

  lemma MoveOne(sent: seq<Frame>, frame: Frame, rest: seq<Frame>)
    ensures sent + ([frame] + rest) == (sent + [frame]) + rest
    ensures [] + rest == rest
  {
  }

  lemma TakeFront(sent: seq<Frame>, rest: seq<Frame>)
    ensures Take(sent + rest, |sent|) == sent
  {
  }

  lemma TakeAll(sent: seq<Frame>, room: nat)
    requires |sent| <= room
    ensures Take(sent + [], room) == sent
  {
  }

  // ── Streams of encoded frames ───────────────────────────────────────────────

  /** Small enough for the reader: N joints make 12 + 16 N bytes. */
  predicate InCap(r: Reading) {
    12 + 16 * |r.positions| <= MAX_PAYLOAD
  }

  predicate AllPackable(rs: seq<Reading>) {
    forall i :: 0 <= i < |rs| ==> Packable(rs[i])
  }

  predicate AllInCap(rs: seq<Reading>) {
    forall i :: 0 <= i < |rs| ==> InCap(rs[i])
  }

  function EncodeAll(rs: seq<Reading>): seq<byte>
    requires AllPackable(rs)
  {
    if rs == [] then [] else EncodeFrame(rs[0]).value + EncodeAll(rs[1..])
  }

  function FramesOf(device: string, rs: seq<Reading>): (fs: seq<Frame>)
    requires AllPackable(rs)
    ensures |fs| == |rs| && forall i :: 0 <= i < |rs| ==> fs[i] == FrameOf(device, rs[i])
  {
    if rs == [] then [] else [FrameOf(device, rs[0])] + FramesOf(device, rs[1..])
  }

  lemma FirstOfPrefixed(p: seq<byte>, rest: seq<byte>)
    requires |p| < TWO_32
    ensures var b := ToBE(|p|, 4) + p + rest;
            if 0 < |p| <= MAX_PAYLOAD then FirstPayload(b) == Some(p) && b[4 + |p|..] == rest
            else FirstPayload(b) == None
  {
    var b := ToBE(|p|, 4) + p + rest;
    PowValues();
    FromToBE(|p|, 4);
    assert b[..4] == ToBE(|p|, 4);
    if |p| <= MAX_PAYLOAD {
      assert b[4..4 + |p|] == p;
    }
  }

  /** A frame is read, and the reader goes on, exactly when it has at most 62499 joints; otherwise it stops for good. */
  lemma FrameReadIffInCap(device: string, r: Reading, rest: seq<byte>)
    requires Packable(r)
    ensures InCap(r) <==> |r.positions| <= 62_499
    ensures ReadAll(device, EncodeFrame(r).value + rest) ==
              if InCap(r) then [FrameOf(device, r)] + ReadAll(device, rest) else []
  {
    FirstOfPrefixed(Payload(r), rest);
    DecodeEncode(r);
    assert EncodeFrame(r).value + rest == ToBE(|Payload(r)|, 4) + Payload(r) + rest;
  }

  /** A payload that does not parse is skipped without losing the next frame. */
  lemma UnreadablePayloadIsSkipped(device: string, p: seq<byte>, rest: seq<byte>)
    requires 0 < |p| <= MAX_PAYLOAD && Decode(p).None?
    ensures ReadAll(device, ToBE(|p|, 4) + p + rest) == ReadAll(device, rest)
  {
    FirstOfPrefixed(p, rest);
  }

  lemma {:induction false} FramesThen(device: string, rs: seq<Reading>, rest: seq<byte>)
    requires AllPackable(rs) && AllInCap(rs)
    ensures ReadAll(device, EncodeAll(rs) + rest) == FramesOf(device, rs) + ReadAll(device, rest)
  {
    if rs == [] {
      assert EncodeAll(rs) + rest == rest;
    } else {
      var tail := EncodeAll(rs[1..]) + rest;
      FramesThen(device, rs[1..], rest);
      OneMoreFrame(device, rs, rest);
      assert [FrameOf(device, rs[0])] + (FramesOf(device, rs[1..]) + ReadAll(device, rest))
          == FramesOf(device, rs) + ReadAll(device, rest);
    }
  }

  lemma OneMoreFrame(device: string, rs: seq<Reading>, rest: seq<byte>)
    requires AllPackable(rs) && AllInCap(rs) && rs != []
    ensures ReadAll(device, EncodeAll(rs) + rest) ==
                [FrameOf(device, rs[0])] + ReadAll(device, EncodeAll(rs[1..]) + rest)
  {
    var head := EncodeFrame(rs[0]).value;
    assert (head + EncodeAll(rs[1..])) + rest == head + (EncodeAll(rs[1..]) + rest);
    FrameReadIffInCap(device, rs[0], EncodeAll(rs[1..]) + rest);
  }

  /** Every proper prefix of a frame yields nothing. */
  lemma TruncatedFrameYieldsNothing(device: string, r: Reading, n: nat)
    requires Packable(r) && InCap(r) && n < |EncodeFrame(r).value|
    ensures ReadAll(device, EncodeFrame(r).value[..n]) == []
  {
    var b := EncodeFrame(r).value[..n];
    PowValues();
    FromToBE(|Payload(r)|, 4);
    if n >= 4 {
      assert b[..4] == ToBE(|Payload(r)|, 4);
    }
  }

  /** A stream of encoded frames cut off inside the last one delivers all the others, in order. */
  lemma TruncatedTailDropsOnlyTheLast(device: string, rs: seq<Reading>, last: Reading, n: nat)
    requires AllPackable(rs) && AllInCap(rs)
    requires Packable(last) && InCap(last) && n < |EncodeFrame(last).value|
    ensures ReadAll(device, EncodeAll(rs) + EncodeFrame(last).value[..n]) == FramesOf(device, rs)
  {
    FramesThen(device, rs, EncodeFrame(last).value[..n]);
    TruncatedFrameYieldsNothing(device, last, n);
  }

  // ── Delivery ────────────────────────────────────────────────────────────────

  /**
   * The simulator writes the frames of `rs` and then at most a part of one more, `last`; however these bytes
   * are cut into chunks, the loop sends exactly the frames of `rs`, in order, as far as the channel takes them.
   */
  method Deliver(device: string, socket: Socket, room: nat, ghost rs: seq<Reading>, ghost last: Reading, ghost n: nat)
    returns (sent: seq<Frame>)
    requires AllPackable(rs) && AllInCap(rs)
    requires Packable(last) && InCap(last) && n < |EncodeFrame(last).value|
    requires Flatten(socket.chunks) == EncodeAll(rs) + EncodeFrame(last).value[..n]
    modifies socket
    ensures sent == Take(FramesOf(device, rs), room)
    ensures |rs| <= room ==> sent == FramesOf(device, rs)
  {
    TruncatedTailDropsOnlyTheLast(device, rs, last, n);
    var rounds: nat;
    sent, rounds := RunFromSocket(device, socket, room);
  }
}
