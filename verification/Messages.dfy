/** The commands the control engine puts on the bus, as values and as bytes. */
module Messages {
  import opened Protocol
  import opened Parser
  import opened Codec

  datatype Msg = Remote(on: bool) | Run(on: bool) | Rpm(target: real) | Status

  function MsgBytes(m: Msg, pump: int): Bytes {
    match m
    case Remote(on) => RemoteControl(on, pump)
    case Run(on) => RunStop(on, pump)
    case Rpm(t) => SetRpm(t, pump)
    case Status => StatusRequest(pump)
  }

  function MsgFrame(m: Msg, pump: byte): (f: Frame)
    ensures Sendable(f)
  {
    match m
    case Remote(on) => Frame(pump, ADDR_CONTROLLER, REMOTE_CONTROL, [if on then REMOTE_ENABLE else REMOTE_RELEASE])
    case Run(on) => Frame(pump, ADDR_CONTROLLER, RUN_STOP, [if on then RUN else STOP])
    case Rpm(t) =>
      var v := ClampRpm(t);
      Frame(pump, ADDR_CONTROLLER, SET_REGISTER, [REG_RPM_HI, REG_RPM_LO, v / 256 % 256, v % 256])
    case Status => Frame(pump, ADDR_CONTROLLER, STATUS, [])
  }

  /** Every command factory prints exactly the frame it means. */
  lemma MsgEncodes(m: Msg, pump: byte)
    ensures MsgBytes(m, pump) == Encode(MsgFrame(m, pump))
  {
    BuildEncodes(MsgFrame(m, pump));
  }

  function Stream(msgs: seq<Msg>, pump: int): Bytes {
    if msgs == [] then [] else MsgBytes(msgs[0], pump) + Stream(msgs[1..], pump)
  }

  function Frames(msgs: seq<Msg>, pump: byte): (fs: seq<Frame>)
    ensures |fs| == |msgs|
  {
    if msgs == [] then [] else [MsgFrame(msgs[0], pump)] + Frames(msgs[1..], pump)
  }

  /** How many messages lie wholly inside the first n bytes of their stream. */
  function Complete(msgs: seq<Msg>, pump: int, n: nat): (k: nat)
    ensures k <= |msgs|
  {
    if msgs == [] || n < |MsgBytes(msgs[0], pump)| then 0
    else 1 + Complete(msgs[1..], pump, n - |MsgBytes(msgs[0], pump)|)
  }

  /** A cut stream that holds its first message: that message, then the rest cut. */
  lemma CutFirst(msgs: seq<Msg>, pump: byte, n: nat, e: Bytes)
    requires |msgs| > 0 && n <= |Stream(msgs, pump)| && e == MsgBytes(msgs[0], pump)
    ensures n < |e| ==> Complete(msgs, pump, n) == 0 && Stream(msgs, pump)[..n] == e[..n]
    ensures n >= |e| ==>
              && Stream(msgs, pump)[..n] == e + Stream(msgs[1..], pump)[..n - |e|]
              && Complete(msgs, pump, n) == 1 + Complete(msgs[1..], pump, n - |e|)
              && Frames(msgs[..Complete(msgs, pump, n)], pump)
                   == [MsgFrame(msgs[0], pump)] + Frames(msgs[1..][..Complete(msgs[1..], pump, n - |e|)], pump)
  {
    if n >= |e| {
      var k := Complete(msgs[1..], pump, n - |e|);
      assert msgs[..k + 1] == [msgs[0]] + msgs[1..][..k];
    }
  }

  /** A stream cut anywhere scans to the frames of its complete messages. */
  lemma {:induction false} CutStream(msgs: seq<Msg>, pump: byte, n: nat, verify: bool)
    requires n <= |Stream(msgs, pump)|
    ensures Scan(Stream(msgs, pump)[..n], verify).frames == Frames(msgs[..Complete(msgs, pump, n)], pump)
    decreases |msgs|
  {
    if msgs == [] {
      NoiseAlone([], verify);
    } else {
      var f := MsgFrame(msgs[0], pump);
      var e := Encode(f);
      MsgEncodes(msgs[0], pump);
      CutFirst(msgs, pump, n, e);
      if n < |e| {
        CutFrameSilent(f, n, verify);
      } else {
        CutStream(msgs[1..], pump, n - |e|, verify);
        FrameScanned(f, Stream(msgs[1..], pump)[..n - |e|], verify);
      }
    }
  }

  /** An uncut stream scans to all of its frames and leaves nothing over. */
  lemma {:induction false} WholeStream(msgs: seq<Msg>, pump: byte, verify: bool)
    ensures Scan(Stream(msgs, pump), verify).frames == Frames(msgs, pump)
    ensures Leftover(Stream(msgs, pump), verify) == []
    decreases |msgs|
  {
    if msgs == [] {
      ScanNothing([], verify);
    } else {
      hide Scan, Leftover, MsgBytes, MsgFrame;
      MsgEncodes(msgs[0], pump);
      WholeStream(msgs[1..], pump, verify);
      FrameScanned(MsgFrame(msgs[0], pump), Stream(msgs[1..], pump), verify);
    }
  }
}
