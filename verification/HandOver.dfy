/** Hand-over: from the bytes an app sent before it vanished to the bytes the guardian holds
    the pump with. */
module HandOver {
  import opened Protocol
  import opened Parser
  import opened Messages
  import opened Codec
  import G = Guardian

  /** What one command means for the intent. */
  function Apply(i: G.Intent, m: Msg): G.Intent {
    match m
    case Remote(on) => i.(remote := on)
    case Run(on) => i.(running := on)
    case Rpm(t) => i.(rpm := ClampRpm(t))
    case Status => i
  }

  function Fold(i: G.Intent, msgs: seq<Msg>): G.Intent {
    if msgs == [] then i else Apply(Fold(i, msgs[..|msgs| - 1]), msgs[|msgs| - 1])
  }

  lemma {:induction false} FoldFirst(i: G.Intent, msgs: seq<Msg>)
    requires |msgs| > 0
    ensures Fold(i, msgs) == Fold(Apply(i, msgs[0]), msgs[1..])
    decreases |msgs|
  {
    var n := |msgs| - 1;
    if n == 0 {
      assert msgs[..n] == [] && msgs[1..] == [];
    } else {
      FoldFirst(i, msgs[..n]);
      assert msgs[1..][..n - 1] == msgs[..n][1..];
    }
  }

  /** The guardian reads a command's frame as exactly what the command means. */
  lemma SniffIsApply(i: G.Intent, m: Msg, pump: byte)
    ensures G.Sniff(i, MsgFrame(m, pump), pump) == Apply(i, m)
  {}

  lemma {:induction false} SniffFolds(i: G.Intent, msgs: seq<Msg>, pump: byte)
    ensures G.SniffAll(i, Frames(msgs, pump), pump) == Fold(i, msgs)
    decreases |msgs|
  {
    if msgs != [] {
      SniffIsApply(i, msgs[0], pump);
      SniffFolds(Apply(i, msgs[0]), msgs[1..], pump);
      FoldFirst(i, msgs);
    }
  }

  lemma {:induction false} SniffAllAppend(i: G.Intent, a: seq<Frame>, b: seq<Frame>, pump: int)
    ensures G.SniffAll(i, a + b, pump) == G.SniffAll(G.SniffAll(i, a, pump), b, pump)
    decreases |a|
  {
    if a == [] {
      assert a + b == b;
    } else {
      SniffAllAppend(G.Sniff(i, a[0], pump), a[1..], b, pump);
      assert (a + b)[1..] == a[1..] + b;
    }
  }

  function ObserveAll(c: G.Config, g: G.State, chunks: seq<Bytes>): G.State {
    if chunks == [] then g
    else G.OnBytes(c, ObserveAll(c, g, chunks[..|chunks| - 1]), chunks[|chunks| - 1])
  }

  lemma {:induction false} ObserveAllFeeds(c: G.Config, g: G.State, chunks: seq<Bytes>)
    ensures var (frames, rx) := FeedAll(g.rx, chunks, false);
            ObserveAll(c, g, chunks) == g.(rx := rx, intent := G.SniffAll(g.intent, frames, c.pumpAddr))
    decreases |chunks|
  {
    if chunks != [] {
      var n := |chunks| - 1;
      ObserveAllFeeds(c, g, chunks[..n]);
      var (fs, rx) := FeedAll(g.rx, chunks[..n], false);
      var (gs, rx') := Feed(rx, chunks[n], false);
      SniffAllAppend(g.intent, fs, gs, c.pumpAddr);
    }
  }

  /** Hand-over of the intent: whatever commands and polls an app sends on its connection,
      wherever the stream is cut and however it is split into reads, the guardian's intent is
      the meaning of the complete messages, applied to the intent it had before. */
  lemma IntentHandedOver(c: G.Config, g: G.State, msgs: seq<Msg>, n: nat, chunks: seq<Bytes>)
    requires 0 <= c.pumpAddr < 256
    requires n <= |Stream(msgs, c.pumpAddr)| && Concat(chunks) == Stream(msgs, c.pumpAddr)[..n]
    ensures ObserveAll(c, G.OnConnect(g), chunks).intent
         == Fold(g.intent, msgs[..Complete(msgs, c.pumpAddr, n)])
  {
    ObserveAllFeeds(c, G.OnConnect(g), chunks);
    ChunkingIrrelevant(chunks, false);
    CutStream(msgs, c.pumpAddr, n, false);
    SniffFolds(g.intent, msgs[..Complete(msgs, c.pumpAddr, n)], c.pumpAddr);
  }

  /** The proviso is needed: configured with an address that is no byte, the guardian ignores
      every frame, so it never learns an intent. */
  lemma {:induction false} UnaddressableIgnored(i: G.Intent, frames: seq<Frame>, pump: int)
    requires !(0 <= pump < 256)
    ensures G.SniffAll(i, frames, pump) == i
    decreases |frames|
  {
    if frames != [] { UnaddressableIgnored(i, frames[1..], pump); }
  }

  // ---------- bursts ----------

  function Commands(msgs: seq<Msg>): seq<Msg> {
    if msgs == [] then []
    else
      var c, m := Commands(msgs[..|msgs| - 1]), msgs[|msgs| - 1];
      if m.Status? then c else c + [m]
  }

  /** Status polls between the commands change nothing. */
  lemma {:induction false} PollsAreSilent(i: G.Intent, msgs: seq<Msg>)
    ensures Fold(i, msgs) == Fold(i, Commands(msgs))
    decreases |msgs|
  {
    if msgs != [] { PollsAreSilent(i, msgs[..|msgs| - 1]); }
  }

  /** What the engine sends to run the pump at a target. */
  function RunBurst(t: real): seq<Msg> { [Remote(true), Run(true), Rpm(t)] }

  function BurstBytes(t: real, pump: int): seq<Bytes> {
    [MsgBytes(Remote(true), pump), MsgBytes(Run(true), pump), MsgBytes(Rpm(t), pump)]
  }

  lemma {:induction false} FoldAppend(i: G.Intent, a: seq<Msg>, b: seq<Msg>)
    ensures Fold(i, a + b) == Fold(Fold(i, a), b)
    decreases |b|
  {
    if b == [] {
      assert a + b == a;
    } else {
      FoldAppend(i, a, b[..|b| - 1]);
      assert (a + b)[..|a + b| - 1] == a + b[..|b| - 1];
    }
  }

  lemma FoldBurst(i: G.Intent, pre: seq<Msg>, t: real)
    ensures Fold(i, pre + RunBurst(t)) == G.Intent(true, true, ClampRpm(t))
  {
    var s := pre + RunBurst(t);
    var n := |s|;
    assert s[..n - 1][..n - 2][..n - 3] == pre;
    assert s[..n - 1][..n - 2][n - 3] == Remote(true) && s[..n - 1][n - 2] == Run(true) && s[n - 1] == Rpm(t);
    assert Fold(i, s[..n - 1][..n - 2]).remote;
  }

  /** Clamping twice is clamping once, so a keep-alive of an observed burst is that burst. */
  lemma HoldRepeatsBurst(c: G.Config, g: G.State, t: real, now: int)
    requires g.intent == G.Intent(true, true, ClampRpm(t))
    ensures var (g', writes) := G.OnDisconnect(c, g, now, true);
            && (ClampRpm(t) > 0 ==> g'.phase == G.Holding && writes == BurstBytes(t, c.pumpAddr))
            && (ClampRpm(t) == 0 ==> g'.phase == G.Idle && writes == [])
  {
    ClampKeepsRange(ClampRpm(t));
  }

  /** If the last command group to arrive complete is a run burst, the first writes of the
      hold are that burst byte for byte, provided its clamped speed is not zero; if it is
      zero, nothing is held. */
  lemma BurstHeldByteForByte(c: G.Config, g: G.State, msgs: seq<Msg>, n: nat, chunks: seq<Bytes>,
                             pre: seq<Msg>, t: real, now: int)
    requires 0 <= c.pumpAddr < 256
    requires n <= |Stream(msgs, c.pumpAddr)| && Concat(chunks) == Stream(msgs, c.pumpAddr)[..n]
    requires Commands(msgs[..Complete(msgs, c.pumpAddr, n)]) == pre + RunBurst(t)
    ensures var (g', writes) := G.OnDisconnect(c, ObserveAll(c, G.OnConnect(g), chunks), now, true);
            && (ClampRpm(t) > 0 ==> g'.phase == G.Holding && writes == BurstBytes(t, c.pumpAddr))
            && (ClampRpm(t) == 0 ==> g'.phase == G.Idle && writes == [])
  {
    var arrived := msgs[..Complete(msgs, c.pumpAddr, n)];
    IntentHandedOver(c, g, msgs, n, chunks);
    PollsAreSilent(g.intent, arrived);
    FoldBurst(g.intent, pre, t);
    HoldRepeatsBurst(c, ObserveAll(c, G.OnConnect(g), chunks), t, now);
  }

  // ---------- a connection that dies inside a burst ----------

  /** The speed a hold would send for an intent, if it would hold at all. */
  datatype Held = Nothing | Speed(rpm: int)

  function HeldFor(i: G.Intent): Held {
    if i.IsRunning() then Speed(ClampRpm(i.rpm as real)) else Nothing
  }

  lemma FoldBurstPrefix(i: G.Intent, t: real, k: nat)
    requires k <= 3
    ensures Fold(i, RunBurst(t)[..k]) ==
              if k == 0 then i
              else if k == 1 then i.(remote := true)
              else if k == 2 then i.(remote := true, running := true)
              else G.Intent(true, true, ClampRpm(t))
  {
    var s := RunBurst(t);
    assert s[..1][..0] == [] && s[..2][..1] == s[..1] && s[..3][..2] == s[..2];
    assert Fold(i, s[..1]) == i.(remote := true);
    assert Fold(i, s[..2]) == i.(remote := true, running := true);
  }

  /** A stored speed surfaces: the intent was not running, but the part of the burst that
      arrived makes it run before the new speed is known. */
  predicate StaleSpeedExposed(i: G.Intent, k: nat, t: real) {
    && !i.IsRunning() && i.rpm > 0
    && (k == 2 || (k == 1 && i.running))
    && ClampRpm(i.rpm as real) != ClampRpm(t)
  }

  /** Old or new: when k of a burst's three commands arrived, the guardian holds what it would
      have held before or what the whole burst asks for, except exactly when a stale stored
      speed is exposed. From a running intent that cannot happen. */
  lemma OldOrNewIff(i: G.Intent, t: real, k: nat)
    requires k <= 3
    ensures HeldFor(Fold(i, RunBurst(t)[..k])) in {HeldFor(i), HeldFor(Fold(i, RunBurst(t)))}
       <==> !StaleSpeedExposed(i, k, t)
    ensures i.IsRunning() ==> !StaleSpeedExposed(i, k, t)
    ensures i.IsRunning() ==> HeldFor(Fold(i, RunBurst(t)[..k])) == HeldFor(if k < 3 then i else Fold(i, RunBurst(t)))
  {
    FoldBurstPrefix(i, t, k);
    FoldBurstPrefix(i, t, 3);
    assert RunBurst(t)[..3] == RunBurst(t);
    G.HeldNeverRaised(i);
    ClampKeepsRange(ClampRpm(t));
    if 0 < i.rpm { ClampPositive(i.rpm); }
  }

  lemma ClampPositive(n: nat)
    requires n > 0
    ensures ClampRpm(n as real) > 0
  {
    assert (n as real + 0.5).Floor == n;
  }

  /** The same said of bytes: while the intent is running, the app starts another burst, polls
      anywhere, and its connection is cut at any byte. With k of the burst's commands arrived,
      the guardian holds exactly the old speed or, once all three arrived, exactly the new. */
  lemma RetargetCutAnywhere(c: G.Config, g: G.State, msgs: seq<Msg>, n: nat, chunks: seq<Bytes>,
                            pre: seq<Msg>, t: real, k: nat)
    requires 0 <= c.pumpAddr < 256
    requires n <= |Stream(msgs, c.pumpAddr)| && Concat(chunks) == Stream(msgs, c.pumpAddr)[..n]
    requires k <= 3 && Commands(msgs[..Complete(msgs, c.pumpAddr, n)]) == pre + RunBurst(t)[..k]
    requires Fold(g.intent, pre).IsRunning()
    ensures HeldFor(ObserveAll(c, G.OnConnect(g), chunks).intent)
         == HeldFor(if k < 3 then Fold(g.intent, pre) else G.Intent(true, true, ClampRpm(t)))
  {
    IntentHandedOver(c, g, msgs, n, chunks);
    PollsAreSilent(g.intent, msgs[..Complete(msgs, c.pumpAddr, n)]);
    FoldAppend(g.intent, pre, RunBurst(t)[..k]);
    FoldBurstPrefix(Fold(g.intent, pre), t, k);
    OldOrNewIff(Fold(g.intent, pre), t, k);
  }

  /** Whole commands in one read: the intent is their fold, and nothing is left over. */
  lemma WholeRead(c: G.Config, g: G.State, msgs: seq<Msg>)
    requires 0 <= c.pumpAddr < 256 && g.rx == []
    ensures G.OnBytes(c, g, Stream(msgs, c.pumpAddr)) == g.(intent := Fold(g.intent, msgs))
  {
    WholeStream(msgs, c.pumpAddr, false);
    SniffFolds(g.intent, msgs, c.pumpAddr);
    assert [] + Stream(msgs, c.pumpAddr) == Stream(msgs, c.pumpAddr);
  }

  /** What an app sends that runs the pump at an old speed, stops it, and is cut after the RUN
      of a burst for a new one. */
  function StopAndCut(was: real, target: real): seq<Msg> {
    RunBurst(was) + [Remote(true), Run(false)] + RunBurst(target)[..2]
  }

  lemma StopAndCutFold(i: G.Intent, was: real, target: real)
    ensures Fold(i, RunBurst(was) + [Remote(true), Run(false)]) == G.Intent(true, false, ClampRpm(was))
    ensures Fold(i, StopAndCut(was, target)) == G.Intent(true, true, ClampRpm(was))
    ensures Fold(i, StopAndCut(was, target) + [Rpm(target)]) == G.Intent(true, true, ClampRpm(target))
  {
    hide ClampRpm;
    assert (StopAndCut(was, target) + [Rpm(target)])[..|StopAndCut(was, target)|] == StopAndCut(was, target);
    var a, b := RunBurst(was), [Remote(true), Run(false)];
    FoldBurst(i, [], was);
    assert [] + a == a;
    FoldAppend(i, a, b);
    assert b[..1] == [Remote(true)] && b[..1][..0] == [];
    assert Fold(Fold(i, a), b[..1]) == Fold(i, a).(remote := true);
    FoldAppend(i, a + b, RunBurst(target)[..2]);
    FoldBurstPrefix(Fold(i, a + b), target, 2);
  }

  /** An old speed surfaces on the wire: whatever the guardian knew before, in any chunks, after
      such a stream it holds the old speed, although the app had stopped the pump and the whole
      last burst asks for the new speed. */
  lemma StaleSpeedExample(c: G.Config, g: G.State, chunks: seq<Bytes>, was: real, target: real)
    requires 0 <= c.pumpAddr < 256 && ClampRpm(was) > 0
    requires Concat(chunks) == Stream(StopAndCut(was, target), c.pumpAddr)
    ensures HeldFor(ObserveAll(c, G.OnConnect(g), chunks).intent) == Speed(ClampRpm(was))
    ensures HeldFor(Fold(g.intent, RunBurst(was) + [Remote(true), Run(false)])) == Nothing
    ensures HeldFor(Fold(g.intent, StopAndCut(was, target) + [Rpm(target)]))
         == if ClampRpm(target) > 0 then Speed(ClampRpm(target)) else Nothing
  {
    hide *;
    WholeConnection(c, g, StopAndCut(was, target), chunks);
    StopAndCutFold(g.intent, was, target);
    HeldForSpeed(was);
    HeldForSpeed(target);
  }

  lemma HeldForSpeed(t: real)
    ensures HeldFor(G.Intent(true, true, ClampRpm(t))) == if ClampRpm(t) > 0 then Speed(ClampRpm(t)) else Nothing
    ensures HeldFor(G.Intent(true, false, ClampRpm(t))) == Nothing
  {
    ClampKeepsRange(ClampRpm(t));
  }

  /** A connection that carried whole commands only. */
  lemma WholeConnection(c: G.Config, g: G.State, msgs: seq<Msg>, chunks: seq<Bytes>)
    requires 0 <= c.pumpAddr < 256 && Concat(chunks) == Stream(msgs, c.pumpAddr)
    ensures ObserveAll(c, G.OnConnect(g), chunks).intent == Fold(g.intent, msgs)
  {
    ObserveAllFeeds(c, G.OnConnect(g), chunks);
    ChunkingIrrelevant(chunks, false);
    WholeStream(msgs, c.pumpAddr, false);
    SniffFolds(g.intent, msgs, c.pumpAddr);
  }

  // ---------- the guardian without its server ----------

  /** Called as follows, the guardian by itself ends up idle with its keep-alive armed: the app
      runs the pump and vanishes, a stop is observed during the hold, and a disconnect is
      reported again. At the next tick before the deadline it runs the pump once more. */
  lemma IdleWithTimerArmed(c: G.Config, t: real, now: int)
    requires 0 <= c.pumpAddr < 256 && ClampRpm(t) > 0 && 0 < c.keepAliveMs < c.failoverMaxMs
    ensures var g1 := G.OnBytes(c, G.OnConnect(G.INITIAL), Stream(RunBurst(t), c.pumpAddr));
            var g2 := G.OnDisconnect(c, g1, now, true).0;
            var g3 := G.OnBytes(c, g2, Stream([Run(false)], c.pumpAddr));
            var g4 := G.OnDisconnect(c, g3, now, true).0;
            && g2.phase == G.Holding && !g4.intent.IsRunning()
            && g4.phase == G.Idle && g4.timer == G.Due(now + c.keepAliveMs)
            && G.OnTick(c, g4, now + c.keepAliveMs, true).1 == BurstBytes(t, c.pumpAddr)
  {
    hide ClampRpm, Stream, Fold, RunBurst, BurstBytes, G.OnBytes, G.KeepAlive;
    var g0 := G.OnConnect(G.INITIAL);
    WholeRead(c, g0, RunBurst(t));
    FoldBurst(g0.intent, [], t);
    assert [] + RunBurst(t) == RunBurst(t);
    var g1 := g0.(intent := G.Intent(true, true, ClampRpm(t)));
    var g2 := G.OnDisconnect(c, g1, now, true).0;
    WholeRead(c, g2, [Run(false)]);
    FoldStop(g2.intent);
    KeepAliveIsBurst(g2.intent.(running := false), t, c.pumpAddr);
  }

  lemma FoldStop(i: G.Intent)
    ensures Fold(i, [Run(false)]) == i.(running := false)
  {
    assert [Run(false)][..0] == [] && Fold(i, []) == i;
  }

  lemma KeepAliveIsBurst(i: G.Intent, t: real, pump: int)
    requires i.rpm == ClampRpm(t)
    ensures G.KeepAlive(i, pump) == BurstBytes(t, pump)
  {
    hide Build, ClampRpm;
    ClampKeepsRange(ClampRpm(t));
  }

  // ---------- what any traffic means ----------

  /** A frame for the pump that says something of the given kind: remote control, run or stop, or
      the speed register. */
  predicate Says(f: Frame, pump: int, action: int) {
    && f.dst == pump && f.action == action
    && (action == 0x01 ==> |f.data| >= 4 && f.data[0] == 0x02 && f.data[1] == 0xC4)
  }

  function LastSaying(frames: seq<Frame>, pump: int, action: int): seq<Frame> {
    if frames == [] then []
    else
      var n := |frames| - 1;
      if Says(frames[n], pump, action) then [frames[n]] else LastSaying(frames[..n], pump, action)
  }

  lemma SniffSnoc(i: G.Intent, frames: seq<Frame>, f: Frame, pump: int)
    ensures G.SniffAll(i, frames + [f], pump) == G.Sniff(G.SniffAll(i, frames, pump), f, pump)
  {
    SniffAllAppend(i, frames, [f], pump);
    assert [f][1..] == [] && [f][0] == f;
  }

  /** Whatever frames pass, the app's or anyone's: each part of the intent is what the last frame
      for the pump that speaks of it says, and what it was if none does. */
  lemma {:induction false} LastWordCounts(i: G.Intent, frames: seq<Frame>, pump: int)
    ensures var o := G.SniffAll(i, frames, pump);
            var remote, run, speed := LastSaying(frames, pump, 0x04), LastSaying(frames, pump, 0x06),
                                      LastSaying(frames, pump, 0x01);
            && |remote| <= 1 && |run| <= 1 && |speed| <= 1
            && o.remote == (if remote == [] then i.remote else |remote[0].data| > 0 && remote[0].data[0] == 0xFF)
            && o.running == (if run == [] then i.running else |run[0].data| > 0 && run[0].data[0] == 0x0A)
            && (speed == [] ==> o.rpm == i.rpm)
            && (speed != [] ==> |speed[0].data| >= 4 && o.rpm == speed[0].data[2] as int * 256 + speed[0].data[3])
    decreases |frames|
  {
    hide G.Sniff, G.SniffAll, Says;
    if frames == [] {
      SniffNothing(i, pump);
    } else {
      var n := |frames| - 1;
      LastWordCounts(i, frames[..n], pump);
      SniffSnoc(i, frames[..n], frames[n], pump);
      assert frames[..n] + [frames[n]] == frames;
      OneWord(G.SniffAll(i, frames[..n], pump), frames[n], pump);
    }
  }

  lemma SniffNothing(i: G.Intent, pump: int)
    ensures G.SniffAll(i, [], pump) == i
  {}

  lemma OneWord(i: G.Intent, f: Frame, pump: int)
    ensures var o := G.Sniff(i, f, pump);
            && o.remote == (if Says(f, pump, 0x04) then |f.data| > 0 && f.data[0] == 0xFF else i.remote)
            && o.running == (if Says(f, pump, 0x06) then |f.data| > 0 && f.data[0] == 0x0A else i.running)
            && (!Says(f, pump, 0x01) ==> o.rpm == i.rpm)
            && (Says(f, pump, 0x01) ==> |f.data| >= 4 && o.rpm == f.data[2] as int * 256 + f.data[3])
  {}

  /** A keep-alive at 1500 RPM and a release, byte for byte. */
  lemma HeldBytes(i: G.Intent)
    requires i.rpm == 1500
    ensures G.KeepAlive(i, 0x60) ==
              [[0xFF, 0x00, 0xFF, 0xA5, 0x00, 0x60, 0x21, 0x04, 0x01, 0xFF, 0x02, 0x2A],
               [0xFF, 0x00, 0xFF, 0xA5, 0x00, 0x60, 0x21, 0x06, 0x01, 0x0A, 0x01, 0x37],
               [0xFF, 0x00, 0xFF, 0xA5, 0x00, 0x60, 0x21, 0x01, 0x04, 0x02, 0xC4, 0x05, 0xDC, 0x02, 0xD2]]
    ensures G.Release(0x60) == [[0xFF, 0x00, 0xFF, 0xA5, 0x00, 0x60, 0x21, 0x04, 0x01, 0x00, 0x01, 0x2B]]
  {
    EnableFrame();
    RunFrame();
    ReferenceFrame();
    ReleaseFrame();
    ClampKeepsRange(1500);
    hide RemoteControl, RunStop, SetRpm, ClampRpm;
  }
}
