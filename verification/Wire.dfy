/** Telemetry frames on the wire: big-endian integers and 64-bit patterns (IEEE 754-2008 section 3.4, binary64). */
module Wire {
  import opened Prelude

  type byte = x: int | 0 <= x < 256

  const TWO_32 := 0x1_0000_0000
  const TWO_63 := 0x8000_0000_0000_0000
  const TWO_64 := 0x1_0000_0000_0000_0000

  /** A double as its bit pattern. */
  type Bits = x: int | 0 <= x < 0x1_0000_0000_0000_0000

  // ── Big-endian integers ─────────────────────────────────────────────────────

  function Pow256(n: nat): nat {
    if n == 0 then 1 else 256 * Pow256(n - 1)
  }

  lemma PowValues()
    ensures Pow256(4) == TWO_32 && Pow256(8) == TWO_64
  {
    assert Pow256(2) == 65536;
    assert Pow256(4) == 256 * (256 * Pow256(2));
    assert Pow256(6) == 256 * (256 * Pow256(4));
    assert Pow256(8) == 256 * (256 * Pow256(6));
  }

  function ToBE(v: nat, n: nat): (b: seq<byte>)
    ensures |b| == n
  {
    if n == 0 then [] else ToBE(v / 256, n - 1) + [v % 256]
  }

  function FromBE(b: seq<byte>): nat {
    if b == [] then 0 else FromBE(b[..|b| - 1]) * 256 + b[|b| - 1]
  }

  lemma FourBytes(b: seq<byte>)
    requires |b| == 4
    ensures FromBE(b) ==
              (b[0] as int) * 0x100_0000 + (b[1] as int) * 0x1_0000 + (b[2] as int) * 0x100 + (b[3] as int)
  {
    var b3, b2, b1 := b[..3], b[..2], b[..1];
    assert b3[..2] == b2 && b2[..1] == b1 && b1[..0] == [];
    assert FromBE(b1) == b[0] && FromBE(b2) == FromBE(b1) * 256 + b[1] && FromBE(b3) == FromBE(b2) * 256 + b[2];
  }

  lemma FromBEConcat(a: seq<byte>, b: seq<byte>)
    requires |b| == 4
    ensures FromBE(a + b) == FromBE(a) * TWO_32 + FromBE(b)
  {
    FourBytes(b);
    var c3, c2, c1 := a + b[..3], a + b[..2], a + b[..1];
    assert (a + b)[..|a| + 3] == c3 && c3[..|a| + 2] == c2 && c2[..|a| + 1] == c1 && c1[..|a|] == a;
    assert FromBE(a + b) == FromBE(c3) * 256 + b[3];
    assert FromBE(c3) == FromBE(c2) * 256 + b[2];
    assert FromBE(c2) == FromBE(c1) * 256 + b[1];
    assert FromBE(c1) == FromBE(a) * 256 + b[0];
  }

  /** The word at `at`, most significant byte first. */
  lemma EightBytes(p: seq<byte>, at: nat)
    requires at + 8 <= |p|
    ensures Word(p, at) ==
              (p[at] as int) * 0x100_0000_0000_0000 + (p[at + 1] as int) * 0x1_0000_0000_0000 +
              (p[at + 2] as int) * 0x100_0000_0000 + (p[at + 3] as int) * 0x1_0000_0000 +
              (p[at + 4] as int) * 0x100_0000 + (p[at + 5] as int) * 0x1_0000 + (p[at + 6] as int) * 0x100 +
              (p[at + 7] as int)
  {
    var high, low := p[at..at + 4], p[at + 4..at + 8];
    assert p[at..at + 8] == high + low;
    FromBEConcat(high, low);
    FourBytes(high);
    FourBytes(low);
  }

  lemma {:induction false} FromToBE(v: nat, n: nat)
    requires v < Pow256(n)
    ensures FromBE(ToBE(v, n)) == v
  {
    if n > 0 {
      FromToBE(v / 256, n - 1);
      assert ToBE(v, n)[..n - 1] == ToBE(v / 256, n - 1);
    }
  }

  lemma {:induction false} ToFromBE(b: seq<byte>)
    ensures FromBE(b) < Pow256(|b|) && ToBE(FromBE(b), |b|) == b
  {
    if b != [] {
      ToFromBE(b[..|b| - 1]);
      assert b == b[..|b| - 1] + [b[|b| - 1]];
    }
  }

  /** Two's complement of an i64. */
  function Unsigned(ts: int): (u: nat)
    requires -TWO_63 <= ts < TWO_63
    ensures u < TWO_64
  {
    if ts >= 0 then ts else ts + TWO_64
  }

  function Signed(u: nat): (ts: int)
    requires u < TWO_64
    ensures -TWO_63 <= ts < TWO_63
    ensures Unsigned(ts) == u
  {
    if u < TWO_63 then u else u - TWO_64
  }

  /** Division that truncates toward zero, and its remainder. */
  function TruncDiv(a: int, d: int): int
    requires d > 0
  {
    if a >= 0 then a / d else -(-a / d)
  }

  function TruncRem(a: int, d: int): int
    requires d > 0
  {
    a - TruncDiv(a, d) * d
  }

  // ── Payloads ────────────────────────────────────────────────────────────────

  datatype Reading = Reading(ts: int, positions: seq<Bits>, torques: seq<Bits>)

  datatype Joint = Joint(name: string, position: Bits, torque: Bits, temperature: real)

  datatype Frame = Frame(device: string, seconds: int, nanos: int, joints: seq<Joint>)

  const BILLION := 1_000_000_000

  function Words(ws: seq<Bits>): (b: seq<byte>)
    ensures |b| == 8 * |ws|
  {
    if ws == [] then [] else ToBE(ws[0], 8) + Words(ws[1..])
  }

  /** What struct.pack can pack: an i64, a u32 count, as many torques as positions, a u32 length. */
  predicate Packable(r: Reading) {
    && -TWO_63 <= r.ts < TWO_63
    && |r.torques| == |r.positions|
    && 12 + 16 * |r.positions| < TWO_32
  }

  function Payload(r: Reading): (b: seq<byte>)
    requires Packable(r)
    ensures |b| == 12 + 16 * |r.positions|
  {
    ToBE(Unsigned(r.ts), 8) + ToBE(|r.positions|, 4) + Words(r.positions) + Words(r.torques)
  }

  /** _encode_frame; None where struct.pack raises. */
  function EncodeFrame(r: Reading): (b: Option<seq<byte>>)
    ensures b.Some? <==> Packable(r)
    ensures b.Some? ==> |b.value| == 16 + 16 * |r.positions|
  {
    if Packable(r) then Some(ToBE(|Payload(r)|, 4) + Payload(r)) else None
  }

  const JOINT_NAMES := ["panda_joint1", "panda_joint2", "panda_joint3", "panda_joint4", "panda_joint5", "panda_joint6"]

  function JointName(i: nat): string {
    if i < |JOINT_NAMES| then JOINT_NAMES[i] else "unknown"
  }

  function Word(p: seq<byte>, at: nat): Bits
    requires at + 8 <= |p|
  {
    ToFromBE(p[at..at + 8]);
    PowValues();
    FromBE(p[at..at + 8])
  }

  function JointAt(p: seq<byte>, n: nat, i: nat): Joint
    requires i < n && 12 + 16 * n <= |p|
  {
    Joint(JointName(i), Word(p, 12 + 8 * i), Word(p, 12 + 8 * n + 8 * i), 35.0)
  }

  function JointsOf(p: seq<byte>, n: nat): seq<Joint>
    requires 12 + 16 * n <= |p|
  {
    seq(n, i requires 0 <= i < n => JointAt(p, n, i))
  }

  /** The reading a payload carries, before it is turned into a frame. */
  function Decode(p: seq<byte>): Option<Reading> {
    if |p| < 12 then None
    else
      var n := FromBE(p[8..12]);
      if |p| < 12 + 16 * n then None
      else Some(Reading(Signed(Word(p, 0)),
                        seq(n, i requires 0 <= i < n => Word(p, 12 + 8 * i)),
                        seq(n, i requires 0 <= i < n => Word(p, 12 + 8 * n + 8 * i))))
  }

  function FrameOf(device: string, r: Reading): Frame
    requires |r.torques| == |r.positions|
  {
    Frame(device, TruncDiv(r.ts, BILLION), TruncRem(r.ts, BILLION),
          seq(|r.positions|,
              i requires 0 <= i < |r.positions| => Joint(JointName(i), r.positions[i], r.torques[i], 35.0)))
  }

  lemma JointsAgree(device: string, p: seq<byte>)
    requires Decode(p).Some?
    ensures FrameOf(device, Decode(p).value).joints == JointsOf(p, FromBE(p[8..12]))
  {
  }

  /** The loop of parse_frame: position and torque of joint `i` sit `n` words apart. */
  method PushJoints(p: seq<byte>, n: nat) returns (joints: seq<Joint>)
    requires 12 + 16 * n <= |p|
    ensures joints == JointsOf(p, n)
    ensures |joints| == n
    ensures forall i :: 0 <= i < n ==>
              && joints[i].position == Word(p, 12 + 8 * i) && joints[i].torque == Word(p, 12 + 8 * n + 8 * i)
              && joints[i].temperature == 35.0
              && joints[i].name == (if i == 0 then "panda_joint1" else if i == 1 then "panda_joint2"
                                    else if i == 2 then "panda_joint3" else if i == 3 then "panda_joint4"
                                    else if i == 4 then "panda_joint5" else if i == 5 then "panda_joint6"
                                    else "unknown")
  {
    joints := [];
    var i := 0;
    while i < n
      invariant 0 <= i <= n && |joints| == i
      invariant forall k :: 0 <= k < i ==> joints[k] == JointAt(p, n, k)
    {
      joints := joints + [Joint(JointName(i), Word(p, 12 + i * 8), Word(p, 12 + n * 8 + i * 8), 35.0)];
      i := i + 1;
    }
  }

  /** parse_frame: too short, or shorter than its joint count says, is refused; longer is accepted. */
  method ParseFrame(device: string, p: seq<byte>) returns (r: Option<Frame>)
    ensures r == (if Decode(p).Some? then Some(FrameOf(device, Decode(p).value)) else None)
    ensures r.Some? <==> |p| >= 12 && |p| >= 12 + 16 * FromBE(p[8..12])
    ensures r.Some? ==>
              var u := Word(p, 0);
              var ts := if u < 0x8000_0000_0000_0000 then u else u - 0x1_0000_0000_0000_0000;
              && r.value.device == device
              && r.value.seconds * 1_000_000_000 + r.value.nanos == ts
              && -999_999_999 <= r.value.nanos <= 999_999_999
              && (ts >= 0 ==> r.value.nanos >= 0) && (ts <= 0 ==> r.value.nanos <= 0)
    ensures r.Some? ==>
              var n, joints := FromBE(p[8..12]), r.value.joints;
              && |joints| == n
              && forall i :: 0 <= i < n ==>
                   && joints[i].position == Word(p, 12 + 8 * i) && joints[i].torque == Word(p, 12 + 8 * n + 8 * i)
                   && joints[i].temperature == 35.0
                   && joints[i].name == (if i == 0 then "panda_joint1" else if i == 1 then "panda_joint2"
                                         else if i == 2 then "panda_joint3" else if i == 3 then "panda_joint4"
                                         else if i == 4 then "panda_joint5" else if i == 5 then "panda_joint6"
                                         else "unknown")
    ensures forall a: Reading :: Packable(a) && p == Payload(a) ==>
              && r.Some? && r.value.seconds * 1_000_000_000 + r.value.nanos == a.ts
              && |r.value.joints| == |a.positions| == |a.torques|
              && forall i :: 0 <= i < |a.positions| ==>
                   r.value.joints[i].position == a.positions[i] && r.value.joints[i].torque == a.torques[i]
  {
    forall a: Reading | Packable(a) && p == Payload(a) ensures Decode(p) == Some(a) {
      DecodeEncode(a);
    }
    if |p| < 12 {
      return None;
    }
    var ts := Signed(Word(p, 0));
    var n := FromBE(p[8..12]);
    if |p| < 12 + n * 8 * 2 {
      return None;
    }
    var joints := PushJoints(p, n);
    JointsAgree(device, p);
    return Some(Frame(device, TruncDiv(ts, BILLION), TruncRem(ts, BILLION), joints));
  }

  // ── Encoding and parsing undo each other ────────────────────────────────────

  lemma WordFrom(p: seq<byte>, at: nat, w: Bits)
    requires at + 8 <= |p| && p[at..at + 8] == ToBE(w, 8)
    ensures Word(p, at) == w
  {
    PowValues();
    FromToBE(w, 8);
  }

  lemma SplitSlice(p: seq<byte>, off: nat, head: seq<byte>, tail: seq<byte>)
    requires off + |head| + |tail| <= |p| && p[off..off + |head| + |tail|] == head + tail
    ensures p[off..off + |head|] == head && p[off + |head|..off + |head| + |tail|] == tail
  {
    var both := p[off..off + |head| + |tail|];
    assert both[..|head|] == p[off..off + |head|];
    assert both[|head|..] == p[off + |head|..off + |head| + |tail|];
  }

  /** Words laid out from `off` on are read back one by one. */
  lemma {:induction false} WordOfWords(p: seq<byte>, off: nat, ws: seq<Bits>, i: nat)
    requires i < |ws| && off + 8 * |ws| <= |p| && p[off..off + 8 * |ws|] == Words(ws)
    ensures Word(p, off + 8 * i) == ws[i]
    decreases |ws|
  {
    SplitSlice(p, off, ToBE(ws[0], 8), Words(ws[1..]));
    if i == 0 {
      WordFrom(p, off, ws[0]);
    } else {
      WordOfWords(p, off + 8, ws[1..], i - 1);
    }
  }

  lemma PayloadWords(r: Reading)
    requires Packable(r)
    ensures var p := Payload(r); var n := |r.positions|;
            p[12..12 + 8 * n] == Words(r.positions) && p[12 + 8 * n..12 + 8 * n + 8 * n] == Words(r.torques)
  {
  }

  lemma PayloadHeader(r: Reading)
    requires Packable(r)
    ensures Word(Payload(r), 0) == Unsigned(r.ts) && FromBE(Payload(r)[8..12]) == |r.positions|
  {
    var p := Payload(r);
    assert p[0..8] == ToBE(Unsigned(r.ts), 8);
    assert p[8..12] == ToBE(|r.positions|, 4);
    WordFrom(p, 0, Unsigned(r.ts));
    PowValues();
    FromToBE(|r.positions|, 4);
  }

  /** Parsing an encoding gives the reading back, bit for bit. */
  lemma DecodeEncode(r: Reading)
    requires Packable(r)
    ensures Decode(Payload(r)) == Some(r)
  {
    var p := Payload(r);
    var n := |r.positions|;
    PayloadHeader(r);
    PayloadWords(r);
    forall i | 0 <= i < n ensures Word(p, 12 + 8 * i) == r.positions[i] {
      WordOfWords(p, 12, r.positions, i);
    }
    forall i | 0 <= i < n ensures Word(p, 12 + 8 * n + 8 * i) == r.torques[i] {
      WordOfWords(p, 12 + 8 * n, r.torques, i);
    }
    DecodeFrom(p, r);
  }

  lemma DecodeFrom(p: seq<byte>, r: Reading)
    requires Packable(r) && |p| == 12 + 16 * |r.positions|
    requires Word(p, 0) == Unsigned(r.ts) && FromBE(p[8..12]) == |r.positions|
    requires forall i :: 0 <= i < |r.positions| ==> Word(p, 12 + 8 * i) == r.positions[i]
    requires forall i :: 0 <= i < |r.positions| ==> Word(p, 12 + 8 * |r.positions| + 8 * i) == r.torques[i]
    ensures Decode(p) == Some(r)
  {
    var d := Decode(p).value;
    assert d.positions == r.positions;
    assert d.torques == r.torques;
  }

  /** `ws` are the words of `p` from `off` on. */
  predicate WordsFrom(p: seq<byte>, off: nat, ws: seq<Bits>)
    requires off + 8 * |ws| <= |p|
    decreases |ws|
  {
    ws == [] || (ws[0] == Word(p, off) && WordsFrom(p, off + 8, ws[1..]))
  }

  lemma {:induction false} AllWordsFrom(p: seq<byte>, off: nat, ws: seq<Bits>)
    requires off + 8 * |ws| <= |p| && forall i :: 0 <= i < |ws| ==> ws[i] == Word(p, off + 8 * i)
    ensures WordsFrom(p, off, ws)
    decreases |ws|
  {
    if ws != [] {
      assert ws[0] == Word(p, off + 8 * 0);
      TailWords(p, off, ws);
      AllWordsFrom(p, off + 8, ws[1..]);
    }
  }

  lemma {:induction false} WordsOf(p: seq<byte>, off: nat, ws: seq<Bits>)
    requires off + 8 * |ws| <= |p| && WordsFrom(p, off, ws)
    ensures Words(ws) == p[off..off + 8 * |ws|]
    decreases |ws|
  {
    if ws != [] {
      WordsOf(p, off + 8, ws[1..]);
      WordBytes(p, off);
      JoinSlices(p, off, off + 8, off + 8 * |ws|);
    }
  }

  lemma SliceOfWords(p: seq<byte>, off: nat, ws: seq<Bits>)
    requires off + 8 * |ws| <= |p| && forall i :: 0 <= i < |ws| ==> ws[i] == Word(p, off + 8 * i)
    ensures Words(ws) == p[off..off + 8 * |ws|]
  {
    AllWordsFrom(p, off, ws);
    WordsOf(p, off, ws);
  }

  lemma HeaderBytes(p: seq<byte>)
    requires |p| >= 12
    ensures ToBE(Unsigned(Signed(Word(p, 0))), 8) == p[0..8] && ToBE(FromBE(p[8..12]), 4) == p[8..12]
  {
    WordBytes(p, 0);
    ToFromBE(p[8..12]);
  }

  lemma TailWords(p: seq<byte>, off: nat, ws: seq<Bits>)
    requires ws != [] && off + 8 * |ws| <= |p| && forall i :: 0 <= i < |ws| ==> ws[i] == Word(p, off + 8 * i)
    ensures forall i :: 0 <= i < |ws[1..]| ==> ws[1..][i] == Word(p, off + 8 + 8 * i)
  {
    forall i | 0 <= i < |ws[1..]| ensures ws[1..][i] == Word(p, off + 8 + 8 * i) {
      assert ws[1..][i] == ws[i + 1];
    }
  }

  lemma WordBytes(p: seq<byte>, off: nat)
    requires off + 8 <= |p|
    ensures ToBE(Word(p, off), 8) == p[off..off + 8]
  {
    ToFromBE(p[off..off + 8]);
  }

  lemma JoinSlices(p: seq<byte>, i: nat, j: nat, k: nat)
    requires i <= j <= k <= |p|
    ensures p[i..k] == p[i..j] + p[j..k]
  {
  }

  lemma SplitPayload(p: seq<byte>, n: nat)
    requires 12 + 16 * n <= |p|
    ensures p[..12 + 16 * n] == p[0..8] + p[8..12] + p[12..12 + 8 * n] + p[12 + 8 * n..12 + 8 * n + 8 * n]
  {
  }

  lemma PayloadFrom(r: Reading, ts: seq<byte>, count: seq<byte>, positions: seq<byte>, torques: seq<byte>)
    requires Packable(r) && ToBE(Unsigned(r.ts), 8) == ts && ToBE(|r.positions|, 4) == count
    requires Words(r.positions) == positions && Words(r.torques) == torques
    ensures Payload(r) == ts + count + positions + torques
  {
  }

  lemma DecodedWords(p: seq<byte>)
    requires Decode(p).Some?
    ensures var r := Decode(p).value; var n := FromBE(p[8..12]);
            && |r.positions| == |r.torques| == n && 12 + 16 * n <= |p| && r.ts == Signed(Word(p, 0))
            && Words(r.positions) == p[12..12 + 8 * n] && Words(r.torques) == p[12 + 8 * n..12 + 8 * n + 8 * n]
  {
    var r := Decode(p).value;
    SliceOfWords(p, 12, r.positions);
    SliceOfWords(p, 12 + 8 * |r.positions|, r.torques);
  }

  /** Re-encoding what an accepted payload carries gives its first 12 + 16 N bytes; the rest was ignored. */
  lemma EncodeDecode(p: seq<byte>)
    requires Decode(p).Some? && |p| < TWO_32
    ensures var r := Decode(p).value; Packable(r) && Payload(r) == p[..12 + 16 * |r.positions|]
  {
    var n := FromBE(p[8..12]);
    DecodedWords(p);
    HeaderBytes(p);
    PayloadFrom(Decode(p).value, p[0..8], p[8..12], p[12..12 + 8 * n], p[12 + 8 * n..12 + 8 * n + 8 * n]);
    SplitPayload(p, n);
  }

  /** The bytes of a frame, field by field, each number most significant byte first. */
  lemma EncodedBytes(r: Reading)
    ensures EncodeFrame(r).Some? <==>
              && -0x8000_0000_0000_0000 <= r.ts < 0x8000_0000_0000_0000
              && |r.torques| == |r.positions| && 12 + 16 * |r.positions| < 0x1_0000_0000
    ensures EncodeFrame(r).Some? ==>
              var b, n := EncodeFrame(r).value, |r.positions|;
              && |b| == 16 + 16 * n
              && FromBE(b[0..4]) == 12 + 16 * n
              && Word(b, 4) == (if r.ts >= 0 then r.ts else r.ts + 0x1_0000_0000_0000_0000)
              && FromBE(b[12..16]) == n
              && (forall i :: 0 <= i < n ==> Word(b, 16 + 8 * i) == r.positions[i])
              && (forall i :: 0 <= i < n ==> Word(b, 16 + 8 * n + 8 * i) == r.torques[i])
  {
    if Packable(r) {
      var p, b, n := Payload(r), EncodeFrame(r).value, |r.positions|;
      EncodedHeader(r, b);
      forall i | 0 <= i < n
        ensures Word(b, 16 + 8 * i) == r.positions[i] && Word(b, 16 + 8 * n + 8 * i) == r.torques[i]
      {
        EncodedJoint(r, b, i);
      }
    }
  }

  lemma EncodedHeader(r: Reading, b: seq<byte>)
    requires Packable(r) && b == ToBE(|Payload(r)|, 4) + Payload(r)
    ensures |b| == 4 + |Payload(r)| && b[4..] == Payload(r) && FromBE(b[0..4]) == |Payload(r)|
    ensures Word(b, 4) == Unsigned(r.ts) && FromBE(b[12..16]) == |r.positions|
  {
    var p := Payload(r);
    PowValues();
    FromToBE(|p|, 4);
    PayloadHeader(r);
    assert b[4..] == p && b[0..4] == ToBE(|p|, 4) && b[12..16] == p[8..12];
    WordShifts(b, p, 0);
  }

  lemma EncodedJoint(r: Reading, b: seq<byte>, i: nat)
    requires Packable(r) && i < |r.positions| && |b| == 4 + |Payload(r)| && b[4..] == Payload(r)
    ensures Word(b, 16 + 8 * i) == r.positions[i] && Word(b, 16 + 8 * |r.positions| + 8 * i) == r.torques[i]
  {
    var p, n := Payload(r), |r.positions|;
    PayloadWords(r);
    WordOfWords(p, 12, r.positions, i);
    WordOfWords(p, 12 + 8 * n, r.torques, i);
    WordShifts(b, p, 12 + 8 * i);
    WordShifts(b, p, 12 + 8 * n + 8 * i);
  }

  lemma WordShifts(b: seq<byte>, p: seq<byte>, at: nat)
    requires |b| == 4 + |p| && b[4..] == p && at + 8 <= |p|
    ensures Word(b, 4 + at) == Word(p, at)
  {
    assert b[4 + at..4 + at + 8] == p[at..at + 8];
  }

  /** Seconds and nanos add up to the timestamp and share its sign; from the epoch on, nanos lie in a second. */
  lemma TimestampSplit(device: string, r: Reading)
    requires Packable(r)
    ensures var f := FrameOf(device, r);
            && f.seconds * 1_000_000_000 + f.nanos == r.ts
            && -1_000_000_000 < f.nanos < 1_000_000_000
            && (r.ts >= 0 ==> 0 <= f.nanos <= 999_999_999)
            && (r.ts <= 0 ==> f.nanos <= 0 && f.seconds <= 0)
  {
  }
}
