/** The failover guardian: it learns the app's last intent from the bytes it relays, and while
    no app is connected it re-asserts a running intent until a deadline. */
module Guardian {
  import opened Protocol
  import opened Parser

  datatype Config = Config(pumpAddr: int, keepAliveMs: int, failoverMaxMs: int)

  datatype Phase = Relaying | Holding | Idle

  /** An interval timer: off, or due next at a time. */
  datatype Timer = Off | Due(at: int)

  /** The last control intent seen in the app's command stream. */
  datatype Intent = Intent(remote: bool, running: bool, rpm: nat) {
    predicate IsRunning() { remote && running && rpm > 0 }
  }

  datatype State = State(phase: Phase, rx: Bytes, intent: Intent, timer: Timer, deadline: int)

  const INITIAL := State(Idle, [], Intent(false, false, 0), Off, 0)

  function Sniff(i: Intent, f: Frame, pump: int): Intent {
    var d := f.data;
    if f.dst != pump then i
    else if f.action == REMOTE_CONTROL then i.(remote := |d| > 0 && d[0] == REMOTE_ENABLE)
    else if f.action == RUN_STOP then i.(running := |d| > 0 && d[0] == RUN)
    else if f.action == SET_REGISTER && |d| >= 4 && d[0] == REG_RPM_HI && d[1] == REG_RPM_LO then
      i.(rpm := d[2] as int * 256 + d[3])
    else i
  }

  function SniffAll(i: Intent, frames: seq<Frame>, pump: int): Intent
    decreases |frames|
  {
    if frames == [] then i else SniffAll(Sniff(i, frames[0], pump), frames[1..], pump)
  }

  /** The three writes of one keep-alive. */
  function KeepAlive(i: Intent, pump: int): seq<Bytes> {
    [RemoteControl(true, pump), RunStop(true, pump), SetRpm(ClampRpm(i.rpm as real) as real, pump)]
  }

  function Release(pump: int): seq<Bytes> { [RemoteControl(false, pump)] }

  // ---------- what each event does ----------

  function OnConnect(g: State): State { g.(timer := Off, rx := [], phase := Relaying) }

  function OnDisconnect(c: Config, g: State, now: int, up: bool): (State, seq<Bytes>) {
    if g.intent.IsRunning() then
      (g.(phase := Holding, deadline := now + c.failoverMaxMs, timer := Due(now + c.keepAliveMs)),
       if up then KeepAlive(g.intent, c.pumpAddr) else [])
    else (g.(phase := Idle), [])
  }

  function OnBytes(c: Config, g: State, chunk: Bytes): State {
    var (frames, rx) := Feed(g.rx, chunk, false);
    g.(rx := rx, intent := SniffAll(g.intent, frames, c.pumpAddr))
  }

  function OnTick(c: Config, g: State, now: int, up: bool): (State, seq<Bytes>) {
    if now >= g.deadline then
      (g.(phase := Idle, timer := Off), if up then Release(c.pumpAddr) else [])
    else
      (g.(timer := Due(now + c.keepAliveMs)), if up then KeepAlive(g.intent, c.pumpAddr) else [])
  }

  // ---------- the class ----------

  class Guardian {
    const cfg: Config
    var phase: Phase
    var rxBuf: Bytes
    var remoteEnabled: bool
    var running: bool
    var rpm: nat
    var keepAliveTimer: Timer
    var failoverDeadline: int

    ghost function Abs(): State
      reads this
    {
      State(phase, rxBuf, Intent(remoteEnabled, running, rpm), keepAliveTimer, failoverDeadline)
    }

    constructor (cfg: Config)
      ensures this.cfg == cfg && Abs() == INITIAL
    {
      this.cfg := cfg;
      phase, rxBuf := Idle, [];
      remoteEnabled, running, rpm := false, false, 0;
      keepAliveTimer, failoverDeadline := Off, 0;
    }

    /** The app connects or disconnects; writes are what goes to the bus. */
    method SetClientConnected(connected: bool, now: int, up: bool) returns (writes: seq<Bytes>)
      modifies this
      ensures connected ==> Abs() == OnConnect(old(Abs())) && writes == []
      ensures !connected ==> (Abs(), writes) == OnDisconnect(cfg, old(Abs()), now, up)
    {
      writes := [];
      if connected {
        StopFailover();
        rxBuf := [];
        phase := Relaying;
        return;
      }
      if remoteEnabled && running && rpm > 0 {
        writes := StartFailover(now, up);
      } else {
        phase := Idle;
      }
    }

    /** Bytes the app sent, relayed elsewhere and only read here. */
    method Observe(chunk: Bytes)
      modifies this
      ensures Abs() == OnBytes(cfg, old(Abs()), chunk)
    {
      var merged := rxBuf + chunk;
      var frames, consumed := ScanFrames(merged, false);
      rxBuf := merged[consumed..];
      if |rxBuf| > MAX_RX_BUFFER { rxBuf := []; }
      ghost var start := Abs().intent;
      for k := 0 to |frames|
        invariant SniffAll(Abs().intent, frames[k..], cfg.pumpAddr) == SniffAll(start, frames, cfg.pumpAddr)
        invariant Abs() == old(Abs()).(rx := rxBuf, intent := Abs().intent)
        invariant rxBuf == Feed(old(rxBuf), chunk, false).1
      {
        SniffOne(frames[k]);
        assert frames[k..][1..] == frames[k + 1..];
      }
    }

    method SniffOne(f: Frame)
      modifies this`remoteEnabled, this`running, this`rpm
      ensures Abs().intent == Sniff(old(Abs()).intent, f, cfg.pumpAddr)
    {
      if f.dst != cfg.pumpAddr { return; }
      if f.action == REMOTE_CONTROL {
        remoteEnabled := |f.data| > 0 && f.data[0] == REMOTE_ENABLE;
      } else if f.action == RUN_STOP {
        running := |f.data| > 0 && f.data[0] == RUN;
      } else if f.action == SET_REGISTER {
        if |f.data| >= 4 && f.data[0] == REG_RPM_HI && f.data[1] == REG_RPM_LO {
          rpm := f.data[2] as int * 256 + f.data[3];
        }
      }
    }

    method StartFailover(now: int, up: bool) returns (writes: seq<Bytes>)
      requires Abs().intent.IsRunning()
      modifies this
      ensures (Abs(), writes) == OnDisconnect(cfg, old(Abs()), now, up)
    {
      StopFailover();
      phase := Holding;
      failoverDeadline := now + cfg.failoverMaxMs;
      writes := SendKeepAlive(up);
      keepAliveTimer := Due(now + cfg.keepAliveMs);
    }

    method Tick(now: int, up: bool) returns (writes: seq<Bytes>)
      modifies this
      ensures (Abs(), writes) == OnTick(cfg, old(Abs()), now, up)
    {
      if now >= failoverDeadline {
        writes := SendRelease(up);
        StopFailover();
        phase := Idle;
        return;
      }
      writes := SendKeepAlive(up);
      keepAliveTimer := Due(now + cfg.keepAliveMs); // the interval re-arms itself
    }

    method SendKeepAlive(up: bool) returns (writes: seq<Bytes>)
      ensures writes == if up then KeepAlive(Abs().intent, cfg.pumpAddr) else []
    {
      if !up { return []; }
      var held := ClampRpm(rpm as real);
      writes := [RemoteControl(true, cfg.pumpAddr), RunStop(true, cfg.pumpAddr), SetRpm(held as real, cfg.pumpAddr)];
    }

    method SendRelease(up: bool) returns (writes: seq<Bytes>)
      ensures writes == if up then Release(cfg.pumpAddr) else []
    {
      if !up { return []; }
      writes := [RemoteControl(false, cfg.pumpAddr)];
    }

    method StopFailover()
      modifies this`keepAliveTimer
      ensures Abs() == old(Abs()).(timer := Off)
    {
      keepAliveTimer := Off;
    }
  }

  // ---------- the class alone does not keep its timer discipline ----------

  /** What the server around the guardian keeps true of it. */
  predicate TimerDiscipline(g: State) { g.timer.Due? <==> g.phase == Holding }

  /** A disconnect keeps the discipline exactly when there is something to hold or no
      keep-alive is armed: the idle branch forgets to stop the timer. */
  lemma DisconnectKeepsDisciplineIff(c: Config, g: State, now: int, up: bool)
    ensures TimerDiscipline(OnDisconnect(c, g, now, up).0) <==> g.intent.IsRunning() || g.timer.Off?
  {}

  // ---------- a hold never raises the speed ----------

  lemma HeldNeverRaised(i: Intent)
    ensures 0 <= ClampRpm(i.rpm as real) <= i.rpm && ClampRpm(i.rpm as real) <= RPM_MAX
    ensures i.rpm <= RPM_MAX ==> ClampRpm(i.rpm as real) == i.rpm
  {
    assert (i.rpm as real + 0.5).Floor == i.rpm;
  }
}
