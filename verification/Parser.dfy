/** The resynchronising frame scanner of parser.ts and the chunk reassembly its two readers
    (the guardian and the bridge connection) build on it. */
module Parser {
  import opened Protocol

  const MAX_RX_BUFFER := 4096

  /** What the scanner decides at one position, looking at everything from there on. */
  datatype Verdict = NeedMore | Skip | Accept(size: nat) {
    function Advance(): nat {
      match this
      case NeedMore => 0
      case Skip => 1
      case Accept(n) => n
    }
  }

  /** Length of the packet whose header starts s. */
  function PacketSize(s: Bytes): nat
    requires |s| >= 6
  {
    var len: int := s[5];
    8 + len
  }

  /** A packet's last two bytes are the 16-bit sum of the bytes before them. */
  predicate TrailerOk(p: Bytes)
    requires |p| >= 2
  {
    p[|p| - 2] as int * 256 + p[|p| - 1] == Sum(p[..|p| - 2]) % 65536
  }

  function Decide(s: Bytes, verify: bool): (d: Verdict)
    ensures d.Accept? ==> 8 <= d.size <= |s|
    ensures d.Skip? ==> |s| >= 6
  {
    if |s| < 6 then NeedMore
    else if s[0] != START then Skip
    else if PacketSize(s) > |s| then NeedMore
    else if verify && !TrailerOk(s[..PacketSize(s)]) then Skip
    else Accept(PacketSize(s))
  }

  function FrameOf(s: Bytes): Frame
    requires |s| >= 6 && |s| >= PacketSize(s)
  {
    Frame(s[2], s[3], s[4], s[6..PacketSize(s) - 2])
  }

  /** The frames a verdict emits: the packet's, if it is accepted. */
  function Emit(s: Bytes, verify: bool): seq<Frame> {
    if Decide(s, verify).Accept? then [FrameOf(s)] else []
  }

  datatype ScanResult = ScanResult(frames: seq<Frame>, consumed: nat)

  function Scan(s: Bytes, verify: bool): (r: ScanResult)
    ensures r.consumed <= |s|
    decreases |s|
  {
    var d := Decide(s, verify);
    if d.NeedMore? then ScanResult([], 0)
    else
      var r := Scan(s[d.Advance()..], verify);
      ScanResult(Emit(s, verify) + r.frames, d.Advance() + r.consumed)
  }

  function Leftover(s: Bytes, verify: bool): Bytes { s[Scan(s, verify).consumed..] }

  /** The scan, taken up at index i after the given frames. */
  ghost predicate Progress(buf: Bytes, verify: bool, i: nat, frames: seq<Frame>) {
    && i <= |buf|
    && frames + Scan(buf[i..], verify).frames == Scan(buf, verify).frames
    && i + Scan(buf[i..], verify).consumed == Scan(buf, verify).consumed
  }

  lemma ProgressStart(buf: Bytes, verify: bool)
    ensures Progress(buf, verify, 0, [])
  {
    assert buf[0..] == buf;
  }

  /** Concatenation is associative; named so that proofs can cite it. */
  lemma Assoc<T>(a: seq<T>, b: seq<T>, c: seq<T>)
    ensures (a + b) + c == a + (b + c)
  {}

  /** One turn of the loop below: advancing past a decided position keeps the total. */
  lemma SkipTurn(buf: Bytes, verify: bool, i: nat, frames: seq<Frame>)
    requires Progress(buf, verify, i, frames) && Decide(buf[i..], verify).Skip?
    ensures i < |buf| && Progress(buf, verify, i + 1, frames)
  {
    assert buf[i..][1..] == buf[i + 1..];
    assert Scan(buf[i..], verify).frames == Scan(buf[i + 1..], verify).frames;
  }

  lemma AcceptTurn(buf: Bytes, verify: bool, i: nat, frames: seq<Frame>, n: nat)
    requires Progress(buf, verify, i, frames) && Decide(buf[i..], verify) == Accept(n)
    ensures i + n <= |buf| && Progress(buf, verify, i + n, frames + [FrameOf(buf[i..])])
  {
    assert buf[i..][n..] == buf[i + n..];
    var f, rest := FrameOf(buf[i..]), Scan(buf[i + n..], verify).frames;
    assert Scan(buf[i..], verify).frames == [f] + rest;
    Assoc(frames, [f], rest);
  }

  lemma StopTurn(buf: Bytes, verify: bool, i: nat, frames: seq<Frame>)
    requires Progress(buf, verify, i, frames) && Decide(buf[i..], verify).NeedMore?
    ensures ScanResult(frames, i) == Scan(buf, verify)
  {
    assert Scan(buf[i..], verify) == ScanResult([], 0);
    assert frames + [] == frames;
  }

  /** The verdict at index i in terms of the buffer's own indices. */
  lemma VerdictAt(buf: Bytes, verify: bool, i: nat, end: nat)
    requires i <= |buf| && (i + 6 <= |buf| ==> end == i + 8 + buf[i + 5])
    ensures i + 6 > |buf| ==> Decide(buf[i..], verify) == NeedMore
    ensures i + 6 <= |buf| && buf[i] != START ==> Decide(buf[i..], verify) == Skip
    ensures i + 6 <= |buf| && buf[i] == START && end > |buf| ==> Decide(buf[i..], verify) == NeedMore
    ensures i + 6 <= |buf| && buf[i] == START && end <= |buf| ==>
              && FrameOf(buf[i..]) == Frame(buf[i + 2], buf[i + 3], buf[i + 4], buf[i + 6..end - 2])
              && Decide(buf[i..], verify) ==
                   (if verify && (buf[end - 2] != CheckHi(buf[i..end - 2]) || buf[end - 1] != CheckLo(buf[i..end - 2]))
                    then Skip else Accept(end - i))
  {
    var here := buf[i..];
    if i + 6 <= |buf| && end <= |buf| {
      assert here[..end - i] == buf[i..end];
      assert buf[i..end][..end - i - 2] == buf[i..end - 2];
      CheckBytesAre16BitSum(buf[i..end - 2]);
      assert here[6..end - i - 2] == buf[i + 6..end - 2];
    }
  }

  /** scanFrames: the index loop. */
  method ScanFrames(buf: Bytes, verify: bool) returns (frames: seq<Frame>, consumed: nat)
    ensures ScanResult(frames, consumed) == Scan(buf, verify)
  {
    hide *;
    frames := [];
    var i := 0;
    ProgressStart(buf, verify);
    while i + 6 <= |buf|
      invariant i <= |buf| && Progress(buf, verify, i, frames)
      decreases |buf| - i
    {
      var len: int := buf[i + 5];
      var end := i + 6 + len + 2;
      VerdictAt(buf, verify, i, end);
      if buf[i] == START {
        if end <= |buf| {
          if verify {
            assert i + 6 + len == end - 2;
            var hi, lo := Checksum(buf[i..i + 6 + len]);
            if buf[i + 6 + len] != hi || buf[i + 6 + len + 1] != lo {
              SkipTurn(buf, verify, i, frames);
              i := i + 1; // bad checksum: noise
              continue;
            }
          }
          AcceptTurn(buf, verify, i, frames, end - i);
          frames := frames + [Frame(buf[i + 2], buf[i + 3], buf[i + 4], buf[i + 6..i + 6 + len])];
          i := end;
          continue;
        }
        break; // incomplete frame: keep it for the next read
      }
      SkipTurn(buf, verify, i, frames);
      i := i + 1;
    }
    VerdictAt(buf, verify, i, if i + 6 <= |buf| then i + 8 + buf[i + 5] else 0);
    StopTurn(buf, verify, i, frames);
    return frames, i;
  }

  /** findFrames: the lenient scan, leftover ignored. */
  method FindFrames(buf: Bytes) returns (frames: seq<Frame>)
    ensures frames == Scan(buf, false).frames
  {
    var consumed: nat;
    frames, consumed := ScanFrames(buf, false);
  }

  // ---------- chunking ----------

  /** More bytes never change a verdict already reached. */
  lemma VerdictStable(a: Bytes, b: Bytes, verify: bool)
    requires !Decide(a, verify).NeedMore?
    ensures Decide(a + b, verify) == Decide(a, verify)
  {
    var ab := a + b;
    assert ab[0] == a[0] && ab[5] == a[5];
    if PacketSize(a) <= |a| { assert ab[..PacketSize(a)] == a[..PacketSize(a)]; }
  }

  lemma {:induction false} ScanStops(s: Bytes, verify: bool)
    ensures Decide(Leftover(s, verify), verify).NeedMore?
    decreases |s|
  {
    var d := Decide(s, verify);
    if !d.NeedMore? {
      ScanStops(s[d.Advance()..], verify);
      assert Leftover(s, verify) == Leftover(s[d.Advance()..], verify);
    }
  }

  /** Whatever arrived, at most 262 bytes are carried over to the next read. */
  lemma LeftoverBounded(s: Bytes, verify: bool)
    ensures |Leftover(s, verify)| <= 262
  {
    ScanStops(s, verify);
  }

  lemma EmitStable(a: Bytes, b: Bytes, verify: bool)
    requires !Decide(a, verify).NeedMore?
    ensures Emit(a + b, verify) == Emit(a, verify)
  {
    VerdictStable(a, b, verify);
    if Decide(a, verify).Accept? {
      assert (a + b)[6..PacketSize(a) - 2] == a[6..PacketSize(a) - 2];
    }
  }

  /** First verdict of a, then everything after it, with b appended or not. */
  lemma ScanFirst(a: Bytes, b: Bytes, verify: bool, n: nat)
    requires !Decide(a, verify).NeedMore? && n == Decide(a, verify).Advance()
    ensures 1 <= n <= |a|
    ensures Scan(a + b, verify).frames == Emit(a, verify) + Scan(a[n..] + b, verify).frames
    ensures Scan(a + b, verify).consumed == n + Scan(a[n..] + b, verify).consumed
    ensures Leftover(a + b, verify) == Leftover(a[n..] + b, verify)
  {
    VerdictStable(a, b, verify);
    EmitStable(a, b, verify);
    assert (a + b)[n..] == a[n..] + b;
    ScanStep(a + b, verify, n);
  }

  lemma ScanStep(s: Bytes, verify: bool, n: nat)
    requires !Decide(s, verify).NeedMore? && n == Decide(s, verify).Advance()
    ensures 1 <= n <= |s|
    ensures Scan(s, verify).frames == Emit(s, verify) + Scan(s[n..], verify).frames
    ensures Scan(s, verify).consumed == n + Scan(s[n..], verify).consumed
    ensures Leftover(s, verify) == Leftover(s[n..], verify)
  {
    var c := Scan(s[n..], verify).consumed;
    assert s[n + c..] == s[n..][c..];
  }

  lemma ScanNothing(s: Bytes, verify: bool)
    requires Decide(s, verify).NeedMore?
    ensures Scan(s, verify) == ScanResult([], 0) && Leftover(s, verify) == s
  {}

  /** Scanning a+b is scanning a, then scanning what was left of a followed by b. */
  lemma {:induction false} ScanAppend(a: Bytes, b: Bytes, verify: bool)
    ensures Scan(a + b, verify).frames
         == Scan(a, verify).frames + Scan(Leftover(a, verify) + b, verify).frames
    ensures Scan(a + b, verify).consumed
         == Scan(a, verify).consumed + Scan(Leftover(a, verify) + b, verify).consumed
    ensures Leftover(a + b, verify) == Leftover(Leftover(a, verify) + b, verify)
    decreases |a|
  {
    hide *;
    if Decide(a, verify).NeedMore? {
      ScanNothing(a, verify);
    } else {
      var n := Decide(a, verify).Advance();
      ScanFirst(a, b, verify, n);
      ScanStep(a, verify, n);
      ScanAppend(a[n..], b, verify);
      Assoc(Emit(a, verify), Scan(a[n..], verify).frames, Scan(Leftover(a, verify) + b, verify).frames);
    }
  }

  /** One read of a streaming reader: guardian.observe and BridgeConnection.onData. */
  function Feed(rx: Bytes, chunk: Bytes, verify: bool): (seq<Frame>, Bytes) {
    var r := Scan(rx + chunk, verify);
    var rest := (rx + chunk)[r.consumed..];
    (r.frames, if |rest| > MAX_RX_BUFFER then [] else rest)
  }

  function FeedAll(rx: Bytes, chunks: seq<Bytes>, verify: bool): (seq<Frame>, Bytes)
    decreases |chunks|
  {
    if chunks == [] then ([], rx)
    else
      var (fs, rx') := FeedAll(rx, chunks[..|chunks| - 1], verify);
      var (gs, rx'') := Feed(rx', chunks[|chunks| - 1], verify);
      (fs + gs, rx'')
  }

  function Concat(chunks: seq<Bytes>): Bytes {
    if chunks == [] then [] else Concat(chunks[..|chunks| - 1]) + chunks[|chunks| - 1]
  }

  /** Chunking does not matter: however one connection's bytes are cut into reads, the reader
      delivers the frames of the whole stream and carries over the leftover of the whole
      stream; the 4096-byte reset inside Feed never fires. */
  lemma {:induction false} ChunkingIrrelevant(chunks: seq<Bytes>, verify: bool)
    ensures FeedAll([], chunks, verify)
         == (Scan(Concat(chunks), verify).frames, Leftover(Concat(chunks), verify))
    decreases |chunks|
  {
    if chunks == [] {
      assert Scan([], verify) == ScanResult([], 0);
    } else {
      var n := |chunks| - 1;
      var a, b := Concat(chunks[..n]), chunks[n];
      ChunkingIrrelevant(chunks[..n], verify);
      ScanAppend(a, b, verify);
      LeftoverBounded(a + b, verify);
    }
  }
}
