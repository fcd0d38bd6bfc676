/** The api's own connection to the bus bridge. It supervises its link exactly as the
    guardian's UpstreamClient does, reassembles checked frames from the chunks of one
    connection, and settles every write once. */
module Bridge {
  import opened Options
  import opened Protocol
  import opened Parser
  import opened Upstream

  /** The link fields mean what they mean in UpstreamClient; this class counts no dropped
      writes. */
  class BridgeConnection {
    const cfg: Config
    var socket: bool
    var rxBuf: Bytes
    var reconnectAttempt: nat
    var reconnectTimer: Option<int>
    var connectTimer: Option<int>
    var idleTimer: Option<int>
    var closing: bool
    var connected: bool
    var stallTriggered: bool
    var rxSinceConnect: bool
    var silentCycles: nat
    var lastRxAt: int
    var lastTxAt: int

    ghost function Link(): State
      reads this
    {
      State(socket, connected, closing, reconnectAttempt, reconnectTimer, connectTimer, idleTimer,
            stallTriggered, rxSinceConnect, silentCycles, lastRxAt, 0)
    }

    constructor (cfg: Config)
      ensures this.cfg == cfg && Link() == INITIAL && rxBuf == []
    {
      this.cfg := cfg;
      socket, connected, closing, reconnectAttempt, rxBuf := false, false, false, 0, [];
      reconnectTimer, connectTimer, idleTimer := None, None, None;
      stallTriggered, rxSinceConnect, silentCycles, lastRxAt, lastTxAt := false, false, 0, 0, 0;
    }

    method Start(now: int)
      modifies this
      ensures Link() == OnStart(cfg, old(Link()), now) && rxBuf == old(rxBuf)
    {
      closing := false;
      OpenSocket(now);
      if idleTimer.None? { idleTimer := Some(now + IDLE_CHECK_MS); }
    }

    method OpenSocket(now: int)
      modifies this`socket, this`connectTimer
      ensures Link() == Open(cfg, old(Link()), now)
    {
      if socket { socket := false; }
      socket := true;
      connectTimer := Some(now + cfg.connectTimeoutMs);
    }

    /** A new connection starts with nothing carried over, and the connected callbacks run. */
    method Connected(now: int) returns (fx: Effects)
      modifies this
      ensures Link() == OnConnect(old(Link()), now) && rxBuf == [] && fx == NOTHING.(notedUp := true)
    {
      connected := true;
      reconnectAttempt := 0;
      rxBuf := [];
      lastRxAt := now;
      rxSinceConnect := false;
      connectTimer := None;
      fx := NOTHING.(notedUp := true);
    }

    /** frames go to the frame callbacks, in order. */
    method Data(chunk: Bytes, now: int) returns (frames: seq<Frame>)
      modifies this
      ensures Link() == OnData(old(Link()), now)
      ensures (frames, rxBuf) == Feed(old(rxBuf), chunk, true)
    {
      lastRxAt := now;
      rxSinceConnect := true;
      silentCycles := 0;
      var merged := rxBuf + chunk;
      var consumed: nat;
      frames, consumed := ScanFrames(merged, true);
      rxBuf := merged[consumed..];
      if |rxBuf| > MAX_RX_BUFFER { rxBuf := []; }
    }

    method CheckIdle(now: int) returns (fx: Effects)
      modifies this
      ensures (Link(), fx) == OnIdleCheck(cfg, old(Link()), now) && rxBuf == old(rxBuf)
    {
      fx := NOTHING;
      idleTimer := Some(now + IDLE_CHECK_MS);
      if !connected || closing || lastRxAt == 0 { return; }
      var idleMs := now - lastRxAt;
      if idleMs < cfg.idleTimeoutMs { return; }
      if rxSinceConnect {
        silentCycles := 0;
      } else {
        silentCycles := silentCycles + 1;
      }
      stallTriggered := true;
      fx := NOTHING.(destroyed := socket);
    }

    method Closed(now: int, random: real) returns (fx: Effects)
      modifies this
      ensures (Link(), fx) == OnClose(cfg, old(Link()), now, random) && rxBuf == old(rxBuf)
    {
      fx := NOTHING;
      var wasConnected := connected;
      connected := false;
      socket := false;
      connectTimer := None;
      if wasConnected {
        reconnectAttempt := 0;
        fx := fx.(notedDown := true);
      }
      if !closing {
        var dialled := Reschedule(now, random);
        fx := fx.(dialled := dialled);
      }
    }

    method Reschedule(now: int, random: real) returns (dialled: bool)
      modifies this
      ensures (Link(), dialled) == ScheduleReconnect(cfg, old(Link()), now, random) && rxBuf == old(rxBuf)
    {
      dialled := false;
      if reconnectTimer.Some? || closing { return; }
      if silentCycles >= SILENT_CYCLES_BEFORE_BACKOFF {
        stallTriggered := false;
        reconnectTimer := Some(now + SILENT_RECONNECT_MS);
        return;
      }
      if stallTriggered {
        stallTriggered := false;
        if !closing {
          OpenSocket(now);
          dialled := true;
        }
        return;
      }
      var delay := Delay(reconnectAttempt, random);
      reconnectAttempt := reconnectAttempt + 1;
      reconnectTimer := Some(now + delay);
    }

    method ReconnectTimer(now: int) returns (fx: Effects)
      modifies this
      ensures (Link(), fx) == OnReconnectTimer(cfg, old(Link()), now) && rxBuf == old(rxBuf)
    {
      fx := NOTHING;
      reconnectTimer := None;
      if !closing {
        OpenSocket(now);
        fx := NOTHING.(dialled := true);
      }
    }

    method ConnectTimer() returns (fx: Effects)
      modifies this
      ensures (Link(), fx) == OnConnectTimer(old(Link())) && rxBuf == old(rxBuf)
    {
      connectTimer := None;
      fx := NOTHING.(destroyed := !connected);
    }

    method Shut()
      modifies this
      ensures Link() == OnShut(old(Link())) && rxBuf == old(rxBuf)
    {
      closing := true;
      reconnectTimer := None;
      idleTimer := None;
      connectTimer := None;
      if socket { socket := false; }
      connected := false;
    }

    /** Rejects at once while the link is down, else starts a write with its own timer. */
    method Write(now: int, writeTimeoutMs: int) returns (w: PendingWrite)
      modifies this`lastTxAt
      ensures fresh(w) && w.Abs() == Begun(old(Link()).socket && old(Link()).connected, now + writeTimeoutMs)
    {
      if !socket || !connected {
        w := new PendingWrite(false, now + writeTimeoutMs);
        return;
      }
      lastTxAt := now;
      w := new PendingWrite(true, now + writeTimeoutMs);
    }
  }

  // ---------- one connection's stream ----------

  /** The link, the read buffer, the bytes received since the last connect, and the frames
      delivered since then. */
  datatype Reader = Reader(link: World, rx: Bytes, stream: Bytes, frames: seq<Frame>)

  datatype Input = Chunk(at: int, bytes: Bytes) | LinkEvent(e: Event)

  function EventOf(i: Input): Event {
    match i
    case Chunk(at, _) => Event.Data(at)
    case LinkEvent(e) => e
  }

  predicate Possible(c: Setup, r: Reader, i: Input) {
    Enabled(c, r.link, EventOf(i)) && (i.LinkEvent? ==> !i.e.Data?)
  }

  function Take(c: Setup, r: Reader, i: Input): Reader {
    var link := Step(c, r.link, EventOf(i));
    match i
    case Chunk(_, bytes) =>
      var (frames, rx) := Feed(r.rx, bytes, true);
      Reader(link, rx, r.stream + bytes, r.frames + frames)
    case LinkEvent(Connect(_)) => Reader(link, [], [], [])
    case LinkEvent(_) => r.(link := link)
  }

  predicate IsReading(c: Setup, inputs: seq<Input>) {
    inputs == []
    || (IsReading(c, inputs[..|inputs| - 1]) && Possible(c, Reading(c, inputs[..|inputs| - 1]), inputs[|inputs| - 1]))
  }

  function Reading(c: Setup, inputs: seq<Input>): Reader {
    if inputs == [] then Reader(Upstream.START, [], [], [])
    else Take(c, Reading(c, inputs[..|inputs| - 1]), inputs[|inputs| - 1])
  }

  function Events(inputs: seq<Input>): seq<Event> {
    if inputs == [] then [] else Events(inputs[..|inputs| - 1]) + [EventOf(inputs[|inputs| - 1])]
  }

  /** In every run the link is in a run of the supervisor, so all that is proved of it holds
      here; and the frames delivered are those of a checked scan of exactly the current
      connection's bytes: chunk borders do not show, nothing of an earlier connection is
      mixed in, and the carried-over tail stays within 262 bytes. */
  lemma {:induction false} EveryReadingSound(c: Setup, inputs: seq<Input>)
    requires IsReading(c, inputs)
    ensures IsRun(c, Events(inputs)) && Reading(c, inputs).link == Run(c, Events(inputs))
    ensures Reading(c, inputs).frames == Scan(Reading(c, inputs).stream, true).frames
    ensures Reading(c, inputs).rx == Leftover(Reading(c, inputs).stream, true) && |Reading(c, inputs).rx| <= 262
    decreases |inputs|
  {
    assert Scan([], true) == ScanResult([], 0);
    if inputs != [] {
      var before, i := inputs[..|inputs| - 1], inputs[|inputs| - 1];
      EveryReadingSound(c, before);
      hide Step, Enabled, Scan;
      RunSnoc(c, Events(before), EventOf(i));
      var r := Reading(c, before);
      if i.Chunk? {
        ScanAppend(r.stream, i.bytes, true);
        LeftoverBounded(r.stream + i.bytes, true);
      }
    }
  }

  // ---------- a write settles once ----------

  datatype Outcome = Waiting | Resolved | Rejected

  /** timer: the timeout is armed; settlements counts the calls of resolve and reject. */
  datatype WriteState = WriteState(outcome: Outcome, settled: bool, timer: Option<int>, settlements: nat)

  datatype Callback = TimedOut | Flushed(ok: bool)

  function Begun(up: bool, due: int): WriteState {
    if up then WriteState(Waiting, false, Some(due), 0) else WriteState(Rejected, true, None, 1)
  }

  function OnCallback(w: WriteState, cb: Callback): WriteState {
    match cb
    case TimedOut =>
      if w.settled then w.(timer := None)
      else WriteState(Rejected, true, None, w.settlements + 1)
    case Flushed(ok) =>
      if w.settled then w else WriteState(if ok then Resolved else Rejected, true, None, w.settlements + 1)
  }

  function OnCallbacks(w: WriteState, cbs: seq<Callback>): WriteState
    decreases |cbs|
  {
    if cbs == [] then w else OnCallback(OnCallbacks(w, cbs[..|cbs| - 1]), cbs[|cbs| - 1])
  }

  class PendingWrite {
    var outcome: Outcome
    var settled: bool
    var timer: Option<int>
    ghost var settlements: nat

    ghost function Abs(): WriteState
      reads this
    {
      WriteState(outcome, settled, timer, settlements)
    }

    constructor (up: bool, due: int)
      ensures Abs() == Begun(up, due)
    {
      if up {
        outcome, settled, timer, settlements := Waiting, false, Some(due), 0;
      } else {
        outcome, settled, timer, settlements := Rejected, true, None, 1;
      }
    }

    method TimedOut()
      modifies this
      ensures Abs() == OnCallback(old(Abs()), Callback.TimedOut)
    {
      timer := None;
      if settled { return; }
      settled := true;
      outcome, settlements := Rejected, settlements + 1;
    }

    method Flushed(ok: bool)
      modifies this
      ensures Abs() == OnCallback(old(Abs()), Callback.Flushed(ok))
    {
      if settled { return; }
      settled := true;
      timer := None;
      outcome, settlements := if ok then Resolved else Rejected, settlements + 1;
    }
  }

  /** Whatever callbacks come, in whatever number and order, the first settles the write and
      no later one has any effect; a write begun with the link down was settled already. */
  lemma {:induction false} FirstCallbackDecides(up: bool, due: int, cbs: seq<Callback>)
    ensures var w := OnCallbacks(Begun(up, due), cbs);
            && w.settlements == (if up && cbs == [] then 0 else 1)
            && w.settled == (w.settlements == 1)
            && (w.timer.Some? <==> !w.settled)
            && w.outcome == (if !up then Rejected
                             else if cbs == [] then Waiting
                             else if cbs[0] == Callback.Flushed(true) then Resolved
                             else Rejected)
    decreases |cbs|
  {
    if cbs != [] { FirstCallbackDecides(up, due, cbs[..|cbs| - 1]); }
  }
}
