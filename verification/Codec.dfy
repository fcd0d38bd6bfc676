/** The builder against the scanner: what is printed is read back, through noise, in both
    modes; and what a corrupted packet does to the verifying scanner. */
module Codec {
  import opened Protocol
  import opened Parser

  /** A frame whose length fits its length byte. */
  predicate Sendable(f: Frame) { |f.data| <= 255 }

  predicate NoStart(s: Bytes) { START !in s }

  // ---------- one packet ----------

  lemma PacketTrailer(f: Frame)
    requires Sendable(f)
    ensures TrailerOk(Packet(f))
  {
    var p := Packet(f);
    assert p[..|p| - 2] == Body(f);
    CheckBytesAre16BitSum(Body(f));
  }

  /** A built packet is accepted where it starts, whatever follows, and decodes to its frame. */
  lemma PacketAccepted(f: Frame, rest: Bytes, verify: bool)
    requires Sendable(f)
    ensures Decide(Packet(f) + rest, verify) == Accept(|Packet(f)|)
    ensures FrameOf(Packet(f) + rest) == f
    ensures (Packet(f) + rest)[|Packet(f)|..] == rest
  {
    PacketTrailer(f);
    var s := Packet(f) + rest;
    assert s[..|Packet(f)|] == Packet(f);
    assert s[6..6 + |f.data|] == f.data;
  }

  lemma PacketScanned(f: Frame, rest: Bytes, verify: bool)
    requires Sendable(f)
    ensures Scan(Packet(f) + rest, verify).frames == [f] + Scan(rest, verify).frames
    ensures Leftover(Packet(f) + rest, verify) == Leftover(rest, verify)
  {
    PacketAccepted(f, rest, verify);
    ScanStep(Packet(f) + rest, verify, |Packet(f)|);
  }

  // ---------- noise ----------

  /** Noise in front of at least five more bytes is skipped byte by byte. */
  lemma {:induction false} NoiseSkipped(noise: Bytes, rest: Bytes, verify: bool)
    requires NoStart(noise) && |rest| >= 5
    ensures Scan(noise + rest, verify).frames == Scan(rest, verify).frames
    ensures Leftover(noise + rest, verify) == Leftover(rest, verify)
  {
    if noise == [] {
      assert noise + rest == rest;
    } else {
      var s := noise + rest;
      assert s[1..] == noise[1..] + rest;
      NoiseSkipped(noise[1..], rest, verify);
      SkipScanned(s, verify);
    }
  }

  lemma SkipScanned(s: Bytes, verify: bool)
    requires Decide(s, verify).Skip?
    ensures Scan(s, verify).frames == Scan(s[1..], verify).frames
    ensures Leftover(s, verify) == Leftover(s[1..], verify)
  {
    ScanStep(s, verify, 1);
    assert [] + Scan(s[1..], verify).frames == Scan(s[1..], verify).frames;
  }

  /** A built frame at the head of a buffer is read first. */
  lemma FrameScanned(f: Frame, rest: Bytes, verify: bool)
    requires Sendable(f)
    ensures Scan(Encode(f) + rest, verify).frames == [f] + Scan(rest, verify).frames
    ensures Leftover(Encode(f) + rest, verify) == Leftover(rest, verify)
  {
    assert Encode(f) + rest == PREAMBLE + (Packet(f) + rest);
    assert |Packet(f)| >= 8 && NoStart(PREAMBLE);
    hide *;
    NoiseSkipped(PREAMBLE, Packet(f) + rest, verify);
    PacketScanned(f, rest, verify);
  }

  /** Noise alone yields no frame and leaves at most five bytes, all of them noise. */
  lemma {:induction false} NoiseAlone(noise: Bytes, verify: bool)
    requires NoStart(noise)
    ensures Scan(noise, verify).frames == []
    ensures |Leftover(noise, verify)| <= 5 && NoStart(Leftover(noise, verify))
  {
    if |noise| < 6 {
      ScanNothing(noise, verify);
    } else {
      NoiseAlone(noise[1..], verify);
      SkipScanned(noise, verify);
    }
  }

  // ---------- a noisy line of frames ----------

  /** noise, frame, noise, frame, ..., noise. */
  function Line(noises: seq<Bytes>, frames: seq<Frame>): Bytes
    requires |noises| == |frames| + 1
    requires forall f :: f in frames ==> Sendable(f)
  {
    if frames == [] then noises[0]
    else
      assert frames[0] in frames && Sendable(frames[0]);
      noises[0] + Encode(frames[0]) + Line(noises[1..], frames[1..])
  }

  /** A line with a frame: noise and preamble, the frame's packet, the rest of the line. */
  lemma LineFirst(noises: seq<Bytes>, frames: seq<Frame>)
    requires |noises| == |frames| + 1 && frames != []
    requires forall f :: f in frames ==> Sendable(f)
    requires NoStart(noises[0])
    ensures forall f :: f in frames[1..] ==> Sendable(f)
    ensures Sendable(frames[0]) && |Packet(frames[0])| >= 8 && NoStart(noises[0] + PREAMBLE)
    ensures Line(noises, frames) == (noises[0] + PREAMBLE) + (Packet(frames[0]) + Line(noises[1..], frames[1..]))
  {
    assert frames[0] in frames;
    var f, rest := frames[0], Line(noises[1..], frames[1..]);
    assert noises[0] + Encode(f) + rest == (noises[0] + PREAMBLE) + (Packet(f) + rest);
  }

  /** Round trip: a line of built frames with START-free noise before, between and after them
      scans back to exactly those frames, in order, in both modes; at most five bytes, all of
      them noise, are kept for the next read. */
  lemma {:induction false} LineRoundTrip(noises: seq<Bytes>, frames: seq<Frame>, verify: bool)
    requires |noises| == |frames| + 1
    requires forall f :: f in frames ==> Sendable(f)
    requires forall n :: n in noises ==> NoStart(n)
    ensures Scan(Line(noises, frames), verify).frames == frames
    ensures |Leftover(Line(noises, frames), verify)| <= 5
    ensures NoStart(Leftover(Line(noises, frames), verify))
    decreases |frames|
  {
    hide Scan, Leftover, Packet, Decide, NoStart, Sendable;
    assert noises[0] in noises;
    if frames == [] {
      NoiseAlone(noises[0], verify);
    } else {
      var f, rest := frames[0], Line(noises[1..], frames[1..]);
      LineFirst(noises, frames);
      LineRoundTrip(noises[1..], frames[1..], verify);
      NoiseSkipped(noises[0] + PREAMBLE, Packet(f) + rest, verify);
      PacketScanned(f, rest, verify);
      assert frames == [f] + frames[1..];
    }
  }

  /** A frame cut short anywhere yields nothing yet. */
  lemma CutFrameSilent(f: Frame, n: nat, verify: bool)
    requires Sendable(f) && n < |Encode(f)|
    ensures Scan(Encode(f)[..n], verify).frames == []
  {
    if n <= 3 {
      NoiseAlone(Encode(f)[..n], verify);
    } else if n < 8 {
      ShortPreamble(Encode(f)[..n], verify);
    } else {
      CutPacketSilent(f, n - 3, verify);
      assert Encode(f)[..n] == PREAMBLE + Packet(f)[..n - 3];
      NoiseSkipped(PREAMBLE, Packet(f)[..n - 3], verify);
    }
  }

  lemma CutPacketSilent(f: Frame, n: nat, verify: bool)
    requires Sendable(f) && n < |Packet(f)|
    ensures Decide(Packet(f)[..n], verify).NeedMore?
    ensures Scan(Packet(f)[..n], verify).frames == []
  {
    var p := Packet(f)[..n];
    if n >= 6 { assert p[0] == START && p[5] == Packet(f)[5]; }
    ScanNothing(p, verify);
  }

  /** Up to seven bytes starting with the preamble hold no packet. */
  lemma ShortPreamble(s: Bytes, verify: bool)
    requires 4 <= |s| <= 7 && s[0] != START && s[1] != START
    ensures Scan(s, verify).frames == []
  {
    if |s| < 6 {
      ScanNothing(s, verify);
    } else {
      SkipScanned(s, verify);
      var t := s[1..];
      if |t| < 6 {
        ScanNothing(t, verify);
      } else {
        SkipScanned(t, verify);
        ScanNothing(t[1..], verify);
      }
    }
  }

  // ---------- corruption ----------

  /** Some packet sits at the head of p, complete and with a matching trailer. */
  predicate ValidPacket(p: Bytes) {
    |p| >= 8 && p[0] == START && PacketSize(p) == |p| && TrailerOk(p)
  }

  /** A change of any one byte other than the length byte makes the verifying scanner
      reject the packet at its own offset, whatever follows it. */
  lemma SingleByteErrorRejected(p: Bytes, k: nat, v: byte, rest: Bytes)
    requires ValidPacket(p) && k < |p| && k != 5 && v != p[k]
    ensures Decide(p[k := v] + rest, true) == Skip
  {
    var q := p[k := v];
    assert (q + rest)[..|q|] == q;
    if k > 0 {
      assert q[0] == START && q[5] == p[5];
      var body := p[..|p| - 2];
      if k < |p| - 2 {
        assert q[..|p| - 2] == body[k := v];
        SumUpdate(body, k, v);
        SumMovesDetectably(Sum(body), v - p[k]);
      } else {
        assert q[..|p| - 2] == body;
      }
    }
  }

  lemma SumMovesDetectably(s: int, d: int)
    requires d != 0 && -256 < d < 256
    ensures (s + d) % 65536 != s % 65536
  {
    var q, r := s / 65536, s % 65536;
    assert s == 65536 * q + r;
    if r + d < 0 {
      assert s + d == 65536 * (q - 1) + (r + d + 65536);
    } else if r + d >= 65536 {
      assert s + d == 65536 * (q + 1) + (r + d - 65536);
    } else {
      assert s + d == 65536 * q + (r + d);
    }
  }

  /** Exactly which rewritings of a packet's body pass: those with the same sum modulo 2^16. */
  lemma BodyRewriteAcceptedIff(p: Bytes, q: Bytes, rest: Bytes)
    requires ValidPacket(p) && |q| == |p| && q[0] == START && q[5] == p[5]
    requires q[|q| - 2..] == p[|p| - 2..]
    ensures Decide(q + rest, true) == Accept(|p|) <==> Sum(q[..|q| - 2]) % 65536 == Sum(p[..|p| - 2]) % 65536
  {
    assert (q + rest)[..|q|] == q;
    assert q[|q| - 2] == q[|q| - 2..][0] && q[|q| - 1] == q[|q| - 2..][1];
    assert p[|p| - 2] == p[|p| - 2..][0] && p[|p| - 1] == p[|p| - 2..][1];
  }

  /** The length byte is the exception. What a packet with length byte v instead comes to is
      decided by the undamaged bytes u that arrived: the scanner waits if fewer than 8 + v of
      them are there, and otherwise accepts exactly if the two at 6 + v happen to hold the sum of
      those before them, moved by the damage; else it skips. */
  lemma LengthByteVerdict(p: Bytes, v: byte, rest: Bytes, u: Bytes)
    requires ValidPacket(p) && u == p + rest
    ensures var n: int := v;
            Decide(p[5 := v] + rest, true) ==
              if |u| < 8 + n then NeedMore
              else if u[6 + n] as int * 256 + u[7 + n] == (Sum(u[..6 + n]) + n - p[5]) % 65536 then Accept(8 + n)
              else Skip
  {
    var n: int := v;
    var q := p[5 := v] + rest;
    assert q == u[5 := v];
    if |u| >= 8 + n {
      assert q[..8 + n][..6 + n] == u[..6 + n][5 := v];
      SumUpdate(u[..6 + n], 5, v);
    }
  }

  /** It does happen: a valid two-byte packet whose length byte is cleared
      can be a valid shorter packet. */
  lemma LengthByteErrorAccepted() returns (p: Bytes)
    ensures ValidPacket(p) && p[5] != 0
    ensures Decide(p[5 := 0], true) == Accept(8)
  {
    p := [0xA5, 0x00, 0x60, 0x21, 0x07, 0x02, 0x01, 0x2D, 0x01, 0x5D];
    assert Sum(p[..8]) == 0x15D by { SumOfEight(p[..8]); }
    var q := p[5 := 0];
    assert q[..8][..6] == [0xA5, 0x00, 0x60, 0x21, 0x07, 0x00];
    assert Sum(q[..8][..6]) == 0x12D by { SumOfSix(q[..8][..6]); }
  }

  lemma SumOfThree(b: seq<int>)
    requires |b| == 3
    ensures Sum(b) == b[0] + b[1] + b[2]
  {
    assert b[..2][..1] == [b[0]] && b[..2][..1][..0] == [];
    assert Sum(b[..2][..1]) == b[0];
  }

  lemma SumOfSix(b: seq<int>)
    requires |b| == 6
    ensures Sum(b) == b[0] + b[1] + b[2] + b[3] + b[4] + b[5]
  {
    assert b == b[..3] + b[3..];
    SumAppend(b[..3], b[3..]);
    SumOfThree(b[..3]);
    SumOfThree(b[3..]);
  }

  lemma SumOfEight(b: seq<int>)
    requires |b| == 8
    ensures Sum(b) == b[0] + b[1] + b[2] + b[3] + b[4] + b[5] + b[6] + b[7]
  {
    SumOfSix(b[..6]);
    assert b[..7][..6] == b[..6];
  }

  /** The worked example of the bus reference, "set 1500 RPM" on pump 1, byte for byte. */
  lemma ReferenceFrame()
    ensures SetRpm(1500.0, 0x60)
         == [0xFF, 0x00, 0xFF, 0xA5, 0x00, 0x60, 0x21, 0x01, 0x04, 0x02, 0xC4, 0x05, 0xDC, 0x02, 0xD2]
  {
    hide Build, Sum;
    ClampKeepsRange(1500);
    var f := Frame(0x60, ADDR_CONTROLLER, SET_REGISTER, [REG_RPM_HI, REG_RPM_LO, 0x05, 0xDC]);
    BuildEncodes(f);
    assert Body(f) == [0xA5, 0x00, 0x60, 0x21, 0x01, 0x04, 0x02, 0xC4, 0x05, 0xDC];
    ReferenceSum(Body(f));
  }

  lemma ReferenceSum(body: seq<int>)
    requires body == [0xA5, 0x00, 0x60, 0x21, 0x01, 0x04, 0x02, 0xC4, 0x05, 0xDC]
    ensures Sum(body) == 0x2D2
  {
    assert body[..9][..8] == body[..8];
    SumOfEight(body[..8]);
  }

  // ---------- the other commands, byte for byte ----------

  lemma RunFrame()
    ensures RunStop(true, 0x60) == [0xFF, 0x00, 0xFF, 0xA5, 0x00, 0x60, 0x21, 0x06, 0x01, 0x0A, 0x01, 0x37]
  {
    hide Build, Sum;
    var f := Frame(0x60, 0x21, 0x06, [0x0A]);
    BuildEncodes(f);
    assert Body(f) == [0xA5, 0x00, 0x60, 0x21, 0x06, 0x01, 0x0A];
    SumOfSeven(Body(f));
  }

  lemma StopFrame()
    ensures RunStop(false, 0x60) == [0xFF, 0x00, 0xFF, 0xA5, 0x00, 0x60, 0x21, 0x06, 0x01, 0x04, 0x01, 0x31]
  {
    hide Build, Sum;
    var f := Frame(0x60, 0x21, 0x06, [0x04]);
    BuildEncodes(f);
    assert Body(f) == [0xA5, 0x00, 0x60, 0x21, 0x06, 0x01, 0x04];
    SumOfSeven(Body(f));
  }

  lemma EnableFrame()
    ensures RemoteControl(true, 0x60) == [0xFF, 0x00, 0xFF, 0xA5, 0x00, 0x60, 0x21, 0x04, 0x01, 0xFF, 0x02, 0x2A]
  {
    hide Build, Sum;
    var f := Frame(0x60, 0x21, 0x04, [0xFF]);
    BuildEncodes(f);
    assert Body(f) == [0xA5, 0x00, 0x60, 0x21, 0x04, 0x01, 0xFF];
    SumOfSeven(Body(f));
  }

  lemma ReleaseFrame()
    ensures RemoteControl(false, 0x60) == [0xFF, 0x00, 0xFF, 0xA5, 0x00, 0x60, 0x21, 0x04, 0x01, 0x00, 0x01, 0x2B]
  {
    hide Build, Sum;
    var f := Frame(0x60, 0x21, 0x04, [0x00]);
    BuildEncodes(f);
    assert Body(f) == [0xA5, 0x00, 0x60, 0x21, 0x04, 0x01, 0x00];
    SumOfSeven(Body(f));
  }

  lemma StatusFrame()
    ensures StatusRequest(0x60) == [0xFF, 0x00, 0xFF, 0xA5, 0x00, 0x60, 0x21, 0x07, 0x00, 0x01, 0x2D]
  {
    hide Build, Sum;
    var f := Frame(0x60, 0x21, 0x07, []);
    BuildEncodes(f);
    assert Body(f) == [0xA5, 0x00, 0x60, 0x21, 0x07, 0x00];
    SumOfSix(Body(f));
  }

  lemma SumOfSeven(b: seq<int>)
    requires |b| == 7
    ensures Sum(b) == b[0] + b[1] + b[2] + b[3] + b[4] + b[5] + b[6]
  {
    SumOfSix(b[..6]);
  }

  // ---------- what the lenient scanner lets through ----------

  /** The lenient scanner looks at no sum: a change of any one byte but the start and the length
      byte passes, and if the byte is data, the frame it hands on is the changed one. */
  lemma SingleByteErrorPassesLenient(p: Bytes, k: nat, v: byte, rest: Bytes)
    requires ValidPacket(p) && 0 < k < |p| && k != 5
    ensures Decide(p[k := v] + rest, false) == Accept(|p|)
    ensures 6 <= k < |p| - 2 ==> FrameOf(p[k := v] + rest).data == p[6..|p| - 2][k - 6 := v]
  {
    var q := p[k := v];
    assert (q + rest)[0] == START && (q + rest)[5] == p[5];
    if 6 <= k < |p| - 2 { assert (q + rest)[6..|p| - 2] == p[6..|p| - 2][k - 6 := v]; }
  }

  /** An address that is no byte is cut to its low byte on the wire, but counted whole in the sum:
      the verifying scanner accepts such a frame exactly if what was cut off is a multiple of
      2^16. */
  lemma WideAddressAcceptedIff(dst: int, f: Frame)
    requires Sendable(f) && f.dst == dst % 256
    ensures var wire := Build(dst, f.src, f.action, f.data);
            && |wire| == 3 + 8 + |f.data| && wire[..3] == PREAMBLE
            && (Decide(wire[3..], true) == Accept(8 + |f.data|) <==> (dst - f.dst) % 65536 == 0)
            && (Decide(wire[3..], true) == Skip <==> (dst - f.dst) % 65536 != 0)
  {
    hide Sum, Build, Decide;
    var body: seq<int> := [START, PROTOCOL, dst, f.src, f.action, |f.data|] + f.data;
    SumUpdate(Body(f), 2, dst);
    WireIs(dst, f);
    CheckBytesAre16BitSum(body);
    SameModulo(Sum(Body(f)), dst - f.dst);
    TrailerDecides(f, CheckHi(body), CheckLo(body));
    assert Build(dst, f.src, f.action, f.data)[3..] == WithTrailer(f, CheckHi(body), CheckLo(body));
  }

  function WithTrailer(f: Frame, hi: byte, lo: byte): Bytes
    requires Sendable(f)
  {
    var header: Bytes := [START, PROTOCOL, f.dst, f.src, f.action, |f.data|];
    header + f.data + [hi, lo]
  }

  lemma TrailerDecides(f: Frame, hi: byte, lo: byte)
    requires Sendable(f)
    ensures Decide(WithTrailer(f, hi, lo), true)
         == if hi as int * 256 + lo == Sum(Body(f)) % 65536 then Accept(8 + |f.data|) else Skip
  {
    var p := WithTrailer(f, hi, lo);
    assert p[..|p| - 2] == Body(f);
    assert p[..PacketSize(p)] == p;
    hide Sum;
  }

  lemma WireIs(dst: int, f: Frame)
    requires Sendable(f) && f.dst == dst % 256
    ensures var body: seq<int> := [START, PROTOCOL, dst, f.src, f.action, |f.data|] + f.data;
            && Sum(body) == Sum(Body(f)[2 := dst])
            && var header: Bytes := [START, PROTOCOL, f.dst, f.src, f.action, |f.data|];
               Build(dst, f.src, f.action, f.data)
                 == PREAMBLE + (header + f.data + [CheckHi(body), CheckLo(body)])
  {
    var body: seq<int> := [START, PROTOCOL, dst, f.src, f.action, |f.data|] + f.data;
    assert body == Body(f)[2 := dst];
    var header: Bytes := [START, PROTOCOL, f.dst, f.src, f.action, |f.data|];
    var raw: seq<int> := PREAMBLE + body + [CheckHi(body), CheckLo(body)];
    var wire := PREAMBLE + (header + f.data + [CheckHi(body), CheckLo(body)]);
    assert |raw| == |wire|;
    assert forall i :: 0 <= i < |raw| && i != 5 ==> raw[i] == wire[i];
    assert raw[5] == dst && wire[5] == f.dst;
    assert Truncate(raw) == wire;
  }

  lemma SameModulo(s: int, d: int)
    ensures (s + d) % 65536 == s % 65536 <==> d % 65536 == 0
  {
    var q, r := d / 65536, d % 65536;
    assert s + d == 65536 * q + (s + r);
    assert (s + d) % 65536 == (s + r) % 65536;
    if r != 0 { assert (s + r) % 65536 != s % 65536; }
  }
}
