/** The byte format of the pump bus: constants, checksum, frame builder and the command
    factories of packages/protocol. */
module Protocol {

  type byte = x: int | 0 <= x < 256
  type Bytes = seq<byte>

  const PREAMBLE: Bytes := [0xFF, 0x00, 0xFF]
  const START: byte := 0xA5
  const PROTOCOL: byte := 0x00
  const ADDR_CONTROLLER: byte := 0x21

  const SET_REGISTER: byte := 0x01
  const REMOTE_CONTROL: byte := 0x04
  const RUN_STOP: byte := 0x06
  const STATUS: byte := 0x07

  const REG_RPM_HI: byte := 0x02
  const REG_RPM_LO: byte := 0xC4
  const RPM_MIN := 0
  const RPM_MAX := 3450
  const RUN: byte := 0x0A
  const STOP: byte := 0x04
  const REMOTE_ENABLE: byte := 0xFF
  const REMOTE_RELEASE: byte := 0x00

  /** A parsed frame: what the scanner hands to its readers. */
  datatype Frame = Frame(dst: byte, src: byte, action: byte, data: Bytes)

  // ---------- checksum ----------

  function Sum(xs: seq<int>): int {
    if xs == [] then 0 else Sum(xs[..|xs| - 1]) + xs[|xs| - 1]
  }

  lemma {:induction false} SumAppend(xs: seq<int>, ys: seq<int>)
    ensures Sum(xs + ys) == Sum(xs) + Sum(ys)
  {
    if ys == [] {
      assert xs + ys == xs;
    } else {
      SumAppend(xs, ys[..|ys| - 1]);
      assert (xs + ys)[..|xs + ys| - 1] == xs + ys[..|ys| - 1];
    }
  }

  /** Replacing one element moves the sum by exactly the difference. */
  lemma {:induction false} SumUpdate(xs: seq<int>, k: nat, v: int)
    requires k < |xs|
    ensures Sum(xs[k := v]) == Sum(xs) + v - xs[k]
  {
    assert xs == xs[..k] + ([xs[k]] + xs[k + 1..]);
    assert xs[k := v] == xs[..k] + ([v] + xs[k + 1..]);
    SumAppend(xs[..k], [xs[k]] + xs[k + 1..]);
    SumAppend(xs[..k], [v] + xs[k + 1..]);
    SumAppend([xs[k]], xs[k + 1..]);
    SumAppend([v], xs[k + 1..]);
  }

  function CheckHi(body: seq<int>): byte { Sum(body) / 256 % 256 }
  function CheckLo(body: seq<int>): byte { Sum(body) % 256 }

  lemma CheckBytesAre16BitSum(body: seq<int>)
    ensures CheckHi(body) * 256 + CheckLo(body) == Sum(body) % 65536
  {
    var s := Sum(body);
    assert s == 65536 * (s / 65536) + s % 65536;
    var r := s % 65536;
    assert s / 256 == 256 * (s / 65536) + r / 256;
    assert s % 256 == r % 256;
  }

  /** The loop of checksum.ts; the two bytes are the big-endian sum modulo 2^16. */
  method Checksum(body: seq<int>) returns (hi: byte, lo: byte)
    ensures hi * 256 + lo == Sum(body) % 65536
    ensures hi == CheckHi(body) && lo == CheckLo(body)
  {
    var sum := 0;
    for i := 0 to |body|
      invariant sum == Sum(body[..i])
    {
      assert body[..i + 1][..i] == body[..i];
      sum := sum + body[i];
    }
    assert body[..|body|] == body;
    hi, lo := sum / 256 % 256, sum % 256;
    CheckBytesAre16BitSum(body);
  }

  // ---------- frame building ----------

  /** Uint8Array.from keeps the low eight bits of every number it is given. */
  function Truncate(xs: seq<int>): (r: Bytes)
    ensures |r| == |xs| && forall i :: 0 <= i < |xs| ==> r[i] == xs[i] % 256
  {
    seq(|xs|, i requires 0 <= i < |xs| => xs[i] % 256)
  }

  /** frame.ts: the checksum is taken before the bytes are truncated. */
  function Build(dst: int, src: int, action: int, data: seq<int>): Bytes {
    var body: seq<int> := [START, PROTOCOL, dst, src, action, |data|] + data;
    Truncate(PREAMBLE + body + [CheckHi(body), CheckLo(body)])
  }

  function Body(f: Frame): seq<int> {
    [START, PROTOCOL, f.dst, f.src, f.action, |f.data|] + f.data
  }

  /** The frame on the wire without its preamble. */
  function Packet(f: Frame): (p: Bytes)
    requires |f.data| <= 255
    ensures |p| == 8 + |f.data| && p[0] == START && p[5] == |f.data|
  {
    var header: Bytes := [START, PROTOCOL, f.dst, f.src, f.action, |f.data|];
    header + f.data + [CheckHi(Body(f)), CheckLo(Body(f))]
  }

  function Encode(f: Frame): Bytes
    requires |f.data| <= 255
  {
    PREAMBLE + Packet(f)
  }

  /** On byte-valued fields and at most 255 data bytes nothing is truncated. */
  lemma BuildEncodes(f: Frame)
    requires |f.data| <= 255
    ensures Build(f.dst, f.src, f.action, f.data) == Encode(f)
  {
    var body := Body(f);
    var raw: seq<int> := PREAMBLE + body + [CheckHi(body), CheckLo(body)];
    assert raw == Encode(f);
    assert forall i :: 0 <= i < |raw| ==> 0 <= raw[i] < 256;
    assert Truncate(raw) == Encode(f);
  }

  // ---------- commands ----------

  /** Math.round: halves go up. */
  function Round(x: real): int { (x + 0.5).Floor }

  function ClampRpm(rpm: real): (v: int)
    ensures RPM_MIN <= v <= RPM_MAX
  {
    var r := Round(rpm);
    if r > RPM_MAX then RPM_MAX else if r < RPM_MIN then RPM_MIN else r
  }

  function StatusRequest(pump: int): Bytes { Build(pump, ADDR_CONTROLLER, STATUS, []) }

  function SetRpm(rpm: real, pump: int): Bytes {
    var v := ClampRpm(rpm);
    Build(pump, ADDR_CONTROLLER, SET_REGISTER, [REG_RPM_HI, REG_RPM_LO, v / 256 % 256, v % 256])
  }

  function RunStop(run: bool, pump: int): Bytes {
    Build(pump, ADDR_CONTROLLER, RUN_STOP, [if run then RUN else STOP])
  }

  function RemoteControl(enable: bool, pump: int): Bytes {
    Build(pump, ADDR_CONTROLLER, REMOTE_CONTROL, [if enable then REMOTE_ENABLE else REMOTE_RELEASE])
  }

  /** A whole number already in range passes through the clamp unchanged. */
  lemma ClampKeepsRange(v: int)
    requires RPM_MIN <= v <= RPM_MAX
    ensures ClampRpm(v as real) == v
  {
    assert (v as real + 0.5).Floor == v;
  }

  function Distance(v: int, x: real): real {
    if v as real >= x then v as real - x else x - v as real
  }

  /** The clamped speed is the whole number in 0..3450 nearest to the one asked for, the larger of
      two equally near. */
  lemma ClampIsNearest(rpm: real, w: int)
    requires 0 <= w <= 3450
    ensures 0 <= ClampRpm(rpm) <= 3450
    ensures Distance(ClampRpm(rpm), rpm) < Distance(w, rpm)
            || (Distance(ClampRpm(rpm), rpm) == Distance(w, rpm) && w <= ClampRpm(rpm))
  {}
}
