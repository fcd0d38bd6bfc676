/** The link supervisor: one TCP connection to the bridge, redialled with backoff, torn down
    when it goes quiet, and left alone for a while when it connects but never carries a byte. */
module Upstream {
  import opened Options

  const RECONNECT_DELAYS := [500, 1000, 2000, 3000, 5000]
  const IDLE_CHECK_MS := 1000
  const SILENT_CYCLES_BEFORE_BACKOFF := 3
  const SILENT_RECONNECT_MS := 30_000

  datatype Config = Config(idleTimeoutMs: int, connectTimeoutMs: int)

  /** The fields of UpstreamClient; a timer is the time it is due. socket tells whether a
      socket object with our listeners exists. */
  datatype State = State(
    socket: bool, connected: bool, closing: bool, reconnectAttempt: nat,
    reconnectTimer: Option<int>, connectTimer: Option<int>, idleTimer: Option<int>,
    stallTriggered: bool, rxSinceConnect: bool, silentCycles: nat, lastRxAt: int, dropped: nat)

  const INITIAL := State(false, false, false, 0, None, None, None, false, false, 0, 0, 0)

  /** What a handler does to the outside: dial a new socket, destroy the current one, and call
      onConnected or onDisconnected. */
  datatype Effects = Effects(dialled: bool, destroyed: bool, notedUp: bool, notedDown: bool)

  const NOTHING := Effects(false, false, false, false)

  // ---------- what each handler does ----------

  /** A socket already there is destroyed with its listeners removed. */
  function Open(c: Config, s: State, now: int): State {
    s.(socket := true, connectTimer := Some(now + c.connectTimeoutMs))
  }

  function OnStart(c: Config, s: State, now: int): State {
    var s' := Open(c, s.(closing := false), now);
    if s'.idleTimer.None? then s'.(idleTimer := Some(now + IDLE_CHECK_MS)) else s'
  }

  function OnConnect(s: State, now: int): State {
    s.(connected := true, reconnectAttempt := 0, lastRxAt := now, rxSinceConnect := false, connectTimer := None)
  }

  function OnData(s: State, now: int): State {
    s.(lastRxAt := now, rxSinceConnect := true, silentCycles := 0)
  }

  /** The connection has been quiet for too long. */
  predicate Stalled(c: Config, s: State, now: int) {
    s.connected && !s.closing && s.lastRxAt != 0 && now - s.lastRxAt >= c.idleTimeoutMs
  }

  /** checkIdle; the interval re-arms itself. */
  function OnIdleCheck(c: Config, s: State, now: int): (State, Effects) {
    var s' := s.(idleTimer := Some(now + IDLE_CHECK_MS));
    if !Stalled(c, s, now) then (s', NOTHING)
    else
      (s'.(silentCycles := if s.rxSinceConnect then 0 else s.silentCycles + 1, stallTriggered := true),
       NOTHING.(destroyed := s.socket))
  }

  /** Backoff with up to 20% jitter; random is Math.random(). */
  function Delay(attempt: nat, random: real): (d: int) {
    var base := RECONNECT_DELAYS[if attempt < 4 then attempt else 4];
    base + (base as real * 0.2 * random).Floor
  }

  function ScheduleReconnect(c: Config, s: State, now: int, random: real): (State, bool) {
    if s.reconnectTimer.Some? || s.closing then (s, false)
    else if s.silentCycles >= SILENT_CYCLES_BEFORE_BACKOFF then
      (s.(stallTriggered := false, reconnectTimer := Some(now + SILENT_RECONNECT_MS)), false)
    else if s.stallTriggered then
      (Open(c, s.(stallTriggered := false), now), true)
    else
      (s.(reconnectAttempt := s.reconnectAttempt + 1,
          reconnectTimer := Some(now + Delay(s.reconnectAttempt, random))), false)
  }

  function OnClose(c: Config, s: State, now: int, random: real): (State, Effects) {
    var s1 := s.(connected := false, socket := false, connectTimer := None,
                 reconnectAttempt := if s.connected then 0 else s.reconnectAttempt);
    var fx := NOTHING.(notedDown := s.connected);
    if s.closing then (s1, fx)
    else var (s2, dialled) := ScheduleReconnect(c, s1, now, random); (s2, fx.(dialled := dialled))
  }

  function OnReconnectTimer(c: Config, s: State, now: int): (State, Effects) {
    var s' := s.(reconnectTimer := None);
    if s.closing then (s', NOTHING) else (Open(c, s', now), NOTHING.(dialled := true))
  }

  function OnConnectTimer(s: State): (State, Effects) {
    (s.(connectTimer := None), NOTHING.(destroyed := !s.connected))
  }

  function OnShut(s: State): State {
    s.(closing := true, reconnectTimer := None, idleTimer := None, connectTimer := None,
       socket := false, connected := false)
  }

  // ---------- the class ----------

  class UpstreamClient {
    const cfg: Config
    var socket: bool
    var connected: bool
    var closing: bool
    var reconnectAttempt: nat
    var reconnectTimer: Option<int>
    var connectTimer: Option<int>
    var idleTimer: Option<int>
    var stallTriggered: bool
    var rxSinceConnect: bool
    var silentCycles: nat
    var lastRxAt: int
    var droppedWrites: nat

    ghost function Abs(): State
      reads this
    {
      State(socket, connected, closing, reconnectAttempt, reconnectTimer, connectTimer, idleTimer,
            stallTriggered, rxSinceConnect, silentCycles, lastRxAt, droppedWrites)
    }

    constructor (cfg: Config)
      ensures this.cfg == cfg && Abs() == INITIAL
    {
      this.cfg := cfg;
      socket, connected, closing, reconnectAttempt := false, false, false, 0;
      reconnectTimer, connectTimer, idleTimer := None, None, None;
      stallTriggered, rxSinceConnect, silentCycles, lastRxAt, droppedWrites := false, false, 0, 0, 0;
    }

    method Start(now: int)
      modifies this
      ensures Abs() == OnStart(cfg, old(Abs()), now)
    {
      closing := false;
      OpenSocket(now);
      if idleTimer.None? { idleTimer := Some(now + IDLE_CHECK_MS); }
    }

    method OpenSocket(now: int)
      modifies this`socket, this`connectTimer
      ensures Abs() == Open(cfg, old(Abs()), now)
    {
      if socket { socket := false; }
      socket := true;
      connectTimer := Some(now + cfg.connectTimeoutMs);
    }

    method Connected(now: int) returns (fx: Effects)
      modifies this
      ensures Abs() == OnConnect(old(Abs()), now) && fx == NOTHING.(notedUp := true)
    {
      connected := true;
      reconnectAttempt := 0;
      lastRxAt := now;
      rxSinceConnect := false;
      connectTimer := None;
      fx := NOTHING.(notedUp := true);
    }

    method Data(now: int)
      modifies this
      ensures Abs() == OnData(old(Abs()), now)
    {
      lastRxAt := now;
      rxSinceConnect := true;
      silentCycles := 0;
    }

    method CheckIdle(now: int) returns (fx: Effects)
      modifies this
      ensures (Abs(), fx) == OnIdleCheck(cfg, old(Abs()), now)
    {
      fx := NOTHING;
      idleTimer := Some(now + IDLE_CHECK_MS);
      if !connected || closing || lastRxAt == 0 { return; }
      var idleMs := now - lastRxAt;
      if idleMs < cfg.idleTimeoutMs { return; }
      if rxSinceConnect {
        silentCycles := 0;
      } else {
        silentCycles := silentCycles + 1;
      }
      stallTriggered := true;
      fx := NOTHING.(destroyed := socket);
    }

    method Closed(now: int, random: real) returns (fx: Effects)
      modifies this
      ensures (Abs(), fx) == OnClose(cfg, old(Abs()), now, random)
    {
      fx := NOTHING;
      var wasConnected := connected;
      connected := false;
      socket := false;
      connectTimer := None;
      if wasConnected {
        reconnectAttempt := 0;
        fx := fx.(notedDown := true);
      }
      if !closing {
        var dialled := Reschedule(now, random);
        fx := fx.(dialled := dialled);
      }
    }

    method Reschedule(now: int, random: real) returns (dialled: bool)
      modifies this
      ensures (Abs(), dialled) == ScheduleReconnect(cfg, old(Abs()), now, random)
    {
      dialled := false;
      if reconnectTimer.Some? || closing { return; }
      if silentCycles >= SILENT_CYCLES_BEFORE_BACKOFF {
        stallTriggered := false;
        reconnectTimer := Some(now + SILENT_RECONNECT_MS);
        return;
      }
      if stallTriggered {
        stallTriggered := false;
        if !closing {
          OpenSocket(now);
          dialled := true;
        }
        return;
      }
      var delay := Delay(reconnectAttempt, random);
      reconnectAttempt := reconnectAttempt + 1;
      reconnectTimer := Some(now + delay);
    }

    method ReconnectTimer(now: int) returns (fx: Effects)
      modifies this
      ensures (Abs(), fx) == OnReconnectTimer(cfg, old(Abs()), now)
    {
      fx := NOTHING;
      reconnectTimer := None;
      if !closing {
        OpenSocket(now);
        fx := NOTHING.(dialled := true);
      }
    }

    method ConnectTimer() returns (fx: Effects)
      modifies this
      ensures (Abs(), fx) == OnConnectTimer(old(Abs()))
    {
      connectTimer := None;
      fx := NOTHING.(destroyed := !connected);
    }

    /** Bytes for the bus: written, or counted as dropped while the link is down. */
    method Write() returns (sent: bool)
      modifies this`droppedWrites
      ensures sent == (old(Abs()).socket && old(Abs()).connected)
      ensures Abs() == if sent then old(Abs()) else old(Abs()).(dropped := old(Abs()).dropped + 1)
    {
      if !socket || !connected {
        droppedWrites := droppedWrites + 1;
        return false;
      }
      return true;
    }

    method Shut()
      modifies this
      ensures Abs() == OnShut(old(Abs()))
    {
      closing := true;
      reconnectTimer := None;
      idleTimer := None;
      connectTimer := None;
      if socket { socket := false; }
      connected := false;
    }
  }

  // ---------- runs ----------

  /** History: received bytes, stalls (of a connection that carried bytes or not), dials (made
      at once at a close, or not), waits for a dial begun, and the two notifications. */
  datatype Entry =
    | Byte(at: int)
    | Stall(at: int, carried: bool)
    | Dial(at: int, atOnce: bool)
    | Wait(at: int, due: int)
    | Up(at: int)
    | Down(at: int)

  /** doomed: the current socket has been destroyed and its close has not arrived yet. */
  datatype World = World(s: State, started: bool, doomed: bool, now: int, log: seq<Entry>)

  const START := World(INITIAL, false, false, 0, [])

  datatype Event =
    | Start(at: int)
    | Connect(at: int)
    | Data(at: int)
    | Close(at: int, random: real)
    | IdleCheck(at: int)
    | Reconnect(at: int)
    | ConnectTimeout(at: int)
    | Shut(at: int)

  datatype Setup = Setup(cfg: Config, lag: nat)

  /** One start; a socket connects once, and once destroyed is silent until its one close, which
      comes before the next idle check; timers fire when due, the idle check at most lag late. */
  predicate Enabled(c: Setup, w: World, e: Event) {
    && e.at >= w.now && e.at > 0
    && (w.s.idleTimer.Some? ==> e.at <= w.s.idleTimer.value + c.lag)
    && match e
       case Start(_) => !w.started
       case Connect(_) => w.s.socket && !w.s.connected && !w.doomed
       case Data(_) => w.s.socket && w.s.connected && !w.doomed
       case Close(_, random) => w.s.socket && 0.0 <= random < 1.0
       case IdleCheck(at) => w.s.idleTimer.Some? && at >= w.s.idleTimer.value && !w.doomed
       case Reconnect(at) => w.s.reconnectTimer.Some? && at >= w.s.reconnectTimer.value
       case ConnectTimeout(at) => w.s.connectTimer.Some? && at >= w.s.connectTimer.value
       case Shut(_) => w.started
  }

  /** A handler that armed the reconnect timer began a wait. */
  function Waiting(at: int, s: State, s': State): seq<Entry> {
    if s.reconnectTimer.None? && s'.reconnectTimer.Some? then [Wait(at, s'.reconnectTimer.value)] else []
  }

  function Step(c: Setup, w: World, e: Event): World {
    match e
    case Start(at) => w.(s := OnStart(c.cfg, w.s, at), started := true, now := at, log := w.log + [Dial(at, false)])
    case Connect(at) => w.(s := OnConnect(w.s, at), now := at, log := w.log + [Up(at)])
    case Data(at) => w.(s := OnData(w.s, at), now := at, log := w.log + [Byte(at)])
    case Close(at, random) =>
      var (s, fx) := OnClose(c.cfg, w.s, at, random);
      w.(s := s, now := at, doomed := false,
         log := w.log + (if fx.notedDown then [Down(at)] else []) + (if fx.dialled then [Dial(at, true)] else [])
                      + Waiting(at, w.s, s))
    case IdleCheck(at) =>
      var (s, fx) := OnIdleCheck(c.cfg, w.s, at);
      w.(s := s, now := at, doomed := w.doomed || fx.destroyed,
         log := w.log + (if Stalled(c.cfg, w.s, at) then [Stall(at, w.s.rxSinceConnect)] else []))
    case Reconnect(at) =>
      var (s, fx) := OnReconnectTimer(c.cfg, w.s, at);
      w.(s := s, now := at, log := w.log + (if fx.dialled then [Dial(at, false)] else []))
    case ConnectTimeout(at) =>
      var (s, fx) := OnConnectTimer(w.s);
      w.(s := s, now := at, doomed := w.doomed || fx.destroyed)
    case Shut(at) => w.(s := OnShut(w.s), now := at, doomed := false)
  }

  predicate IsRun(c: Setup, es: seq<Event>) {
    es == [] || (IsRun(c, es[..|es| - 1]) && Enabled(c, Run(c, es[..|es| - 1]), es[|es| - 1]))
  }

  function Run(c: Setup, es: seq<Event>): World {
    if es == [] then START else Step(c, Run(c, es[..|es| - 1]), es[|es| - 1])
  }

  predicate GoodSetup(c: Setup) { c.cfg.idleTimeoutMs > 0 && c.cfg.connectTimeoutMs > 0 }

  // ---------- reconnect machine safety ----------

  predicate Running(w: World) { w.started && !w.s.closing }

  /** Exactly one of socket and reconnect timer; connected implies a socket; a dial under way
      has its connect timer, a connection has none; after close nothing is armed. */
  predicate MachineOk(w: World) {
    && (Running(w) ==> (w.s.socket <==> w.s.reconnectTimer.None?) && w.s.idleTimer.Some?)
    && (!Running(w) ==> !w.s.socket && w.s.reconnectTimer.None? && w.s.idleTimer.None?)
    && (w.s.connected ==> w.s.socket)
    && (w.s.connectTimer.Some? <==> w.s.socket && !w.s.connected && !w.doomed)
    && (w.doomed ==> w.s.socket)
    && (!w.started ==> !w.s.closing && w.s == INITIAL)
    && (w.s.stallTriggered && Running(w) ==> w.doomed && w.s.connected)
  }

  /** A connection that is not already doomed was heard from recently enough at the last idle
      check, so it is torn down within the timeout plus one check. */
  predicate QuietOk(c: Setup, w: World) {
    && (w.s.idleTimer.Some? ==> w.now <= w.s.idleTimer.value + c.lag)
    && (w.s.connected ==> 0 < w.s.lastRxAt <= w.now)
    && (w.s.connected && !w.doomed ==>
          w.s.idleTimer.Some? && w.s.idleTimer.value < w.s.lastRxAt + c.cfg.idleTimeoutMs + 1000)
    && (w.s.idleTimer.Some? ==> w.s.idleTimer.value <= w.now + 1000)
  }

  lemma MachineKept(c: Setup, w: World, e: Event)
    requires Enabled(c, w, e) && MachineOk(w)
    ensures MachineOk(Step(c, w, e))
  {}

  lemma QuietKept(c: Setup, w: World, e: Event)
    requires GoodSetup(c) && Enabled(c, w, e) && MachineOk(w) && QuietOk(c, w)
    ensures QuietOk(c, Step(c, w, e))
  {}

  // ---------- pacing of dials on a silent link ----------

  /** Since the last received byte: stalls of connections that carried none, */
  function SilentStalls(log: seq<Entry>): nat {
    if log == [] || log[|log| - 1].Byte? then 0
    else SilentStalls(log[..|log| - 1]) + (if log[|log| - 1].Stall? && !log[|log| - 1].carried then 1 else 0)
  }

  /** stalls of a connection that had carried some, */
  function CarriedStalls(log: seq<Entry>): nat {
    if log == [] || log[|log| - 1].Byte? then 0
    else CarriedStalls(log[..|log| - 1]) + (if log[|log| - 1].Stall? && log[|log| - 1].carried then 1 else 0)
  }

  /** and dials made at once, without any delay. */
  function DialsAtOnce(log: seq<Entry>): nat {
    if log == [] || log[|log| - 1].Byte? then 0
    else DialsAtOnce(log[..|log| - 1]) + (if log[|log| - 1].Dial? && log[|log| - 1].atOnce then 1 else 0)
  }

  function HeardByte(log: seq<Entry>): bool {
    log != [] && (log[|log| - 1].Byte? || HeardByte(log[..|log| - 1]))
  }

  function LastDial(log: seq<Entry>): Option<int> {
    if log == [] then None
    else if log[|log| - 1].Dial? then Some(log[|log| - 1].at)
    else LastDial(log[..|log| - 1])
  }

  /** Every dial made after three silent stalls comes 30 s or more after the dial before it. */
  predicate Spaced(log: seq<Entry>) {
    log == [] ||
    (var before, last := log[..|log| - 1], log[|log| - 1];
     && Spaced(before)
     && (last.Dial? && SilentStalls(before) >= 3 ==>
           LastDial(before).Some? && last.at >= LastDial(before).value + 30_000))
  }

  /** The last notification given was onConnected. */
  function NotedUp(log: seq<Entry>): bool {
    log != [] && (log[|log| - 1].Up? || (!log[|log| - 1].Down? && NotedUp(log[..|log| - 1])))
  }

  /** onConnected and onDisconnected alternate, onConnected first. */
  predicate Alternate(log: seq<Entry>) {
    log == [] ||
    (var before, last := log[..|log| - 1], log[|log| - 1];
     Alternate(before) && (last.Up? ==> !NotedUp(before)) && (last.Down? ==> NotedUp(before)))
  }

  function Min2(n: nat): nat { if n < 2 then n else 2 }

  /** silentCycles counts the silent stalls since the last byte; and the dials made at once in
      a byte-free stretch are exactly those after a stall that did not reach the backoff. */
  predicate PaceOk(w: World) {
    && w.s.silentCycles == SilentStalls(w.log)
    && DialsAtOnce(w.log) + (if w.s.stallTriggered && w.s.silentCycles < 3 then 1 else 0)
         == CarriedStalls(w.log) + Min2(w.s.silentCycles)
    && CarriedStalls(w.log) <= (if HeardByte(w.log) then 1 else 0)
    && (w.s.connected && !w.doomed && w.s.rxSinceConnect ==>
          HeardByte(w.log) && CarriedStalls(w.log) == 0 && SilentStalls(w.log) == 0)
  }

  predicate SpacingOk(w: World) {
    && Spaced(w.log)
    && (w.started ==> LastDial(w.log).Some? && LastDial(w.log).value <= w.now)
    && (w.s.reconnectTimer.Some? && w.s.silentCycles >= 3 && LastDial(w.log).Some? ==>
          w.s.reconnectTimer.value >= LastDial(w.log).value + 30_000)
  }

  predicate NotesOk(w: World) {
    Alternate(w.log) && (Running(w) || !w.started ==> w.s.connected == NotedUp(w.log))
  }

  lemma Snoc(log: seq<Entry>, x: Entry)
    ensures (log + [x])[..|log + [x]| - 1] == log
    ensures HeardByte(log + [x]) == (x.Byte? || HeardByte(log))
    ensures SilentStalls(log + [x]) ==
              if x.Byte? then 0 else SilentStalls(log) + (if x.Stall? && !x.carried then 1 else 0)
    ensures CarriedStalls(log + [x]) ==
              if x.Byte? then 0 else CarriedStalls(log) + (if x.Stall? && x.carried then 1 else 0)
    ensures DialsAtOnce(log + [x]) == if x.Byte? then 0 else DialsAtOnce(log) + (if x.Dial? && x.atOnce then 1 else 0)
    ensures LastDial(log + [x]) == if x.Dial? then Some(x.at) else LastDial(log)
    ensures NotedUp(log + [x]) == (x.Up? || (!x.Down? && NotedUp(log)))
    ensures Alternate(log + [x]) == (Alternate(log) && (x.Up? ==> !NotedUp(log)) && (x.Down? ==> NotedUp(log)))
    ensures Spaced(log + [x]) == (Spaced(log) && (x.Dial? && SilentStalls(log) >= 3 ==>
              LastDial(log).Some? && x.at >= LastDial(log).value + 30_000))
  {
    assert (log + [x])[..|log|] == log;
  }

  /** The entries one event adds. */
  function Added(c: Setup, w: World, e: Event): seq<Entry> {
    match e
    case Start(at) => [Dial(at, false)]
    case Connect(at) => [Up(at)]
    case Data(at) => [Byte(at)]
    case Close(at, random) =>
      var (s, fx) := OnClose(c.cfg, w.s, at, random);
      (if fx.notedDown then [Down(at)] else []) + (if fx.dialled then [Dial(at, true)] else [])
        + Waiting(at, w.s, s)
    case IdleCheck(at) => if Stalled(c.cfg, w.s, at) then [Stall(at, w.s.rxSinceConnect)] else []
    case Reconnect(at) => if w.s.closing then [] else [Dial(at, false)]
    case ConnectTimeout(_) => []
    case Shut(_) => []
  }

  /** What an event adds, told apart: at most a notification, then a dial or a wait. */
  function FirstAdded(c: Setup, w: World, e: Event): seq<Entry> {
    match e
    case Start(at) => []
    case Connect(at) => [Up(at)]
    case Data(at) => [Byte(at)]
    case Close(at, _) => if w.s.connected then [Down(at)] else []
    case IdleCheck(at) => if Stalled(c.cfg, w.s, at) then [Stall(at, w.s.rxSinceConnect)] else []
    case _ => []
  }

  function ThenAdded(c: Setup, w: World, e: Event): seq<Entry> {
    if Dials(c, w, e) then [Dial(e.at, e.Close?)]
    else if WaitOf(c, w, e).Some? then [Wait(e.at, WaitOf(c, w, e).value)]
    else []
  }

  lemma StepAdds(c: Setup, w: World, e: Event)
    ensures Step(c, w, e).log == (w.log + FirstAdded(c, w, e)) + ThenAdded(c, w, e)
  {
    assert Added(c, w, e) == FirstAdded(c, w, e) + ThenAdded(c, w, e);
    StepAddsAll(c, w, e);
    hide Added, FirstAdded, ThenAdded, Step;
  }

  lemma StepAddsAll(c: Setup, w: World, e: Event)
    ensures Step(c, w, e).log == w.log + Added(c, w, e)
  {
    assert w.log + [] == w.log;
  }

  /** The wait an event begins, if it does. */
  function WaitOf(c: Setup, w: World, e: Event): Option<int> {
    match e
    case Close(at, random) =>
      if w.s.reconnectTimer.None? then OnClose(c.cfg, w.s, at, random).0.reconnectTimer else None
    case _ => None
  }

  /** What a handler's dialling amounts to, event by event. */
  function Dials(c: Setup, w: World, e: Event): bool {
    match e
    case Start(_) => true
    case Close(at, random) => OnClose(c.cfg, w.s, at, random).1.dialled
    case Reconnect(_) => !w.s.closing
    case _ => false
  }

  predicate Stalls(c: Setup, w: World, e: Event, carried: bool) {
    e.IdleCheck? && Stalled(c.cfg, w.s, e.at) && w.s.rxSinceConnect == carried
  }

  function Count(b: bool): nat { if b then 1 else 0 }

  lemma LogMoves(c: Setup, w: World, e: Event, log': seq<Entry>)
    requires log' == Step(c, w, e).log
    ensures SilentStalls(log') == if e.Data? then 0 else SilentStalls(w.log) + Count(Stalls(c, w, e, false))
    ensures CarriedStalls(log') == if e.Data? then 0 else CarriedStalls(w.log) + Count(Stalls(c, w, e, true))
    ensures DialsAtOnce(log') == if e.Data? then 0 else DialsAtOnce(w.log) + Count(e.Close? && Dials(c, w, e))
    ensures HeardByte(log') == (e.Data? || HeardByte(w.log))
    ensures LastDial(log') == if Dials(c, w, e) then Some(e.at) else LastDial(w.log)
    ensures NotedUp(log') == (e.Connect? || (!(e.Close? && w.s.connected) && NotedUp(w.log)))
    ensures Alternate(log') == (Alternate(w.log) && (e.Connect? ==> !NotedUp(w.log))
                                && (e.Close? && w.s.connected ==> NotedUp(w.log)))
    ensures Spaced(log') == (Spaced(w.log) && (Dials(c, w, e) && SilentStalls(w.log) >= 3 ==>
              LastDial(w.log).Some? && e.at >= LastDial(w.log).value + 30_000))
  {
    hide SilentStalls, CarriedStalls, DialsAtOnce, HeardByte, LastDial, NotedUp, Spaced, Alternate, Dials, WaitOf;
    hide Step;
    StepAdds(c, w, e);
    var log1 := w.log + FirstAdded(c, w, e);
    if |FirstAdded(c, w, e)| == 1 { Snoc(w.log, FirstAdded(c, w, e)[0]); } else { assert log1 == w.log; }
    if |ThenAdded(c, w, e)| == 1 { Snoc(log1, ThenAdded(c, w, e)[0]); } else { assert log1 + [] == log1; }
    NoDial(c, w, e);
  }

  lemma NoDial(c: Setup, w: World, e: Event)
    ensures e.Connect? || e.Data? || e.IdleCheck? ==> !Dials(c, w, e) && WaitOf(c, w, e).None?
  {}

  lemma PaceKept(c: Setup, w: World, e: Event)
    requires Enabled(c, w, e) && MachineOk(w) && PaceOk(w)
    ensures PaceOk(Step(c, w, e))
  {
    LogMoves(c, w, e, Step(c, w, e).log);
    hide SilentStalls, CarriedStalls, DialsAtOnce, HeardByte, LastDial, NotedUp, Spaced, Alternate;
  }

  lemma SpacingKept(c: Setup, w: World, e: Event)
    requires Enabled(c, w, e) && MachineOk(w) && PaceOk(w) && SpacingOk(w)
    ensures SpacingOk(Step(c, w, e))
  {
    LogMoves(c, w, e, Step(c, w, e).log);
    hide SilentStalls, CarriedStalls, DialsAtOnce, HeardByte, LastDial, NotedUp, Spaced, Alternate;
  }

  lemma NotesKept(c: Setup, w: World, e: Event)
    requires Enabled(c, w, e) && MachineOk(w) && NotesOk(w)
    ensures NotesOk(Step(c, w, e))
  {
    LogMoves(c, w, e, Step(c, w, e).log);
    hide SilentStalls, CarriedStalls, DialsAtOnce, HeardByte, LastDial, NotedUp, Spaced, Alternate;
  }

  // ---------- all runs ----------

  predicate Safe(c: Setup, w: World) {
    MachineOk(w) && QuietOk(c, w) && PaceOk(w) && SpacingOk(w) && NotesOk(w)
  }

  lemma {:induction false} EveryRunSafe(c: Setup, es: seq<Event>)
    requires GoodSetup(c) && IsRun(c, es)
    ensures Safe(c, Run(c, es))
    decreases |es|
  {
    if es != [] {
      var w, e := Run(c, es[..|es| - 1]), es[|es| - 1];
      EveryRunSafe(c, es[..|es| - 1]);
      hide MachineOk, QuietOk, PaceOk, SpacingOk, NotesOk, Enabled, Step;
      MachineKept(c, w, e);
      QuietKept(c, w, e);
      PaceKept(c, w, e);
      SpacingKept(c, w, e);
      NotesKept(c, w, e);
    }
  }

  /** A stall was counted whose close will dial at once. */
  predicate AboutToDial(s: State) { s.stallTriggered && s.silentCycles < 3 }

  /** Pacing: the exact number of dials without delay since the last byte, one for each of the
      first two silent stalls and one if the connection that carried the byte stalled too; so
      they are at most two if and only if it did not, or fewer than two silent stalls followed,
      or the last of these dials is still to come. A third silent stall makes the supervisor
      wait 30 s between dials until a byte arrives. */
  lemma DialsInSilence(c: Setup, es: seq<Event>)
    requires GoodSetup(c) && IsRun(c, es)
    ensures var w := Run(c, es);
            && w.s.silentCycles == SilentStalls(w.log)
            && DialsAtOnce(w.log) == CarriedStalls(w.log) + Min2(SilentStalls(w.log)) - Count(AboutToDial(w.s))
            && CarriedStalls(w.log) <= (if HeardByte(w.log) then 1 else 0)
            && (DialsAtOnce(w.log) <= 2 <==>
                  CarriedStalls(w.log) == 0 || w.s.silentCycles < 2 || AboutToDial(w.s))
            && Spaced(w.log)
  {
    EveryRunSafe(c, es);
  }

  /** onConnected and onDisconnected alternate in every run, onConnected first, and until
      close() the link is connected exactly when onConnected was the later. */
  lemma NotificationsAlternate(c: Setup, es: seq<Event>)
    requires GoodSetup(c) && IsRun(c, es)
    ensures Alternate(Run(c, es).log)
    ensures !Run(c, es).s.closing ==> (Run(c, es).s.connected <==> NotedUp(Run(c, es).log))
  {
    EveryRunSafe(c, es);
  }

  /** A connection not yet torn down was heard from within the timeout plus one check. */
  lemma QuietLinkTornDown(c: Setup, es: seq<Event>)
    requires GoodSetup(c) && IsRun(c, es)
    ensures var w := Run(c, es);
            w.s.connected && !w.doomed ==> w.now < w.s.lastRxAt + c.cfg.idleTimeoutMs + 1000 + c.lag
  {
    EveryRunSafe(c, es);
  }

  /** After close() no event but another close() can happen, and nothing is ever dialled. */
  lemma ShutIsFinal(c: Setup, es: seq<Event>, e: Event)
    requires GoodSetup(c) && IsRun(c, es) && Run(c, es).s.closing && Enabled(c, Run(c, es), e)
    ensures e.Shut? && Step(c, Run(c, es), e).log == Run(c, es).log && Step(c, Run(c, es), e).s == Run(c, es).s
  {
    EveryRunSafe(c, es);
  }

  /** The early return of scheduleReconnect for a timer already armed is never taken, and a
      connect timer that fires always finds its socket unconnected. */
  lemma GuardsAreDead(c: Setup, es: seq<Event>, e: Event)
    requires GoodSetup(c) && IsRun(c, es) && Enabled(c, Run(c, es), e)
    ensures e.Close? ==> Run(c, es).s.reconnectTimer.None? && !Run(c, es).s.closing
    ensures e.ConnectTimeout? ==> !Run(c, es).s.connected
    ensures e.Reconnect? ==> !Run(c, es).s.closing && !Run(c, es).s.socket
  {
    EveryRunSafe(c, es);
  }

  /** Every armed dial is near: a reconnect timer within 6 s, or 30 s on a silent link, a
      connect timer within its timeout. */
  predicate DialsDueSoon(c: Setup, w: World) {
    && (w.s.reconnectTimer.Some? ==>
          w.s.reconnectTimer.value <=
            w.now + (if w.s.silentCycles >= 3 then 30_000 else 6000))
    && (w.s.connectTimer.Some? ==> w.s.connectTimer.value <= w.now + c.cfg.connectTimeoutMs)
  }

  lemma DueSoonKept(c: Setup, w: World, e: Event)
    requires Enabled(c, w, e) && MachineOk(w) && DialsDueSoon(c, w)
    ensures DialsDueSoon(c, Step(c, w, e))
  {
    hide Delay;
    if e.Close? {
      DelayBounded(w.s.reconnectAttempt, e.random);
      DelayBounded(0, e.random);
    }
  }

  /** Backoff never exceeds its longest step plus a fifth, nor falls short of the shortest. */
  lemma DelayBounded(attempt: nat, random: real)
    requires 0.0 <= random < 1.0
    ensures 500 <= Delay(attempt, random) < 6000
  {}

  /** The supervisor is never stuck: while it runs, its link is connected, or its socket is
      destroyed and about to close, or a dial is under way that ends within the connect timeout,
      or the next dial is due within 6 s, 30 s on a silent link. */
  lemma {:induction false} NeverStuck(c: Setup, es: seq<Event>)
    requires GoodSetup(c) && IsRun(c, es)
    ensures DialsDueSoon(c, Run(c, es))
    ensures Running(Run(c, es)) ==>
              var s := Run(c, es).s;
              s.connected || Run(c, es).doomed || s.connectTimer.Some? || s.reconnectTimer.Some?
    decreases |es|
  {
    EveryRunSafe(c, es);
    if es != [] {
      NeverStuck(c, es[..|es| - 1]);
      EveryRunSafe(c, es[..|es| - 1]);
      hide QuietOk, PaceOk, SpacingOk, NotesOk;
      DueSoonKept(c, Run(c, es[..|es| - 1]), es[|es| - 1]);
    }
  }

  // ---------- the bound is reached ----------

  lemma RunSnoc(c: Setup, es: seq<Event>, e: Event)
    requires IsRun(c, es) && Enabled(c, Run(c, es), e)
    ensures IsRun(c, es + [e]) && Run(c, es + [e]) == Step(c, Run(c, es), e)
  {
    assert (es + [e])[..|es|] == es;
  }

  /** Just dialled, k silent stalls in a row so far, the next idle check one interval away. */
  predicate JustDialled(c: Setup, w: World, k: nat) {
    && w.started && !w.doomed && w.now > 0
    && w.s == INITIAL.(socket := true, connectTimer := Some(w.now + c.cfg.connectTimeoutMs),
                       idleTimer := Some(w.now + 1000), silentCycles := k,
                       lastRxAt := w.s.lastRxAt, rxSinceConnect := w.s.rxSinceConnect)
  }

  /** Connected and quiet since a time, the idle check just made. */
  predicate Watched(c: Setup, w: World, k: nat, carried: bool, since: int) {
    && w.started && !w.doomed && 0 < since <= w.now < since + c.cfg.idleTimeoutMs
    && w.s == INITIAL.(socket := true, connected := true, idleTimer := Some(w.now + 1000),
                       silentCycles := k, lastRxAt := since, rxSinceConnect := carried)
  }

  lemma ConnectAtOnce(c: Setup, w: World, k: nat)
    requires GoodSetup(c) && JustDialled(c, w, k)
    ensures Enabled(c, w, Connect(w.now)) && Watched(c, Step(c, w, Connect(w.now)), k, false, w.now)
    ensures Step(c, w, Connect(w.now)).now == w.now
  {}

  lemma ByteAtOnce(c: Setup, w: World)
    requires GoodSetup(c) && Watched(c, w, 0, false, w.now)
    ensures Enabled(c, w, Data(w.now)) && Watched(c, Step(c, w, Data(w.now)), 0, true, w.now)
  {}

  /** An idle check on time and before the timeout moves its own timer on, and nothing else. */
  lemma CheckOnTime(c: Setup, w: World, k: nat, carried: bool, since: int)
    requires Watched(c, w, k, carried, since) && w.now + 1000 < since + c.cfg.idleTimeoutMs
    ensures var e := IdleCheck(w.now + 1000);
            && Enabled(c, w, e) && Watched(c, Step(c, w, e), k, carried, since)
            && Step(c, w, e).now == w.now + 1000 && Step(c, w, e).log == w.log
  {
    assert w.log + [] == w.log;
  }

  /** An idle check on time and past the timeout counts a stall; the close that follows dials
      again at once, unless that was the third silent stall. */
  lemma StallOnTime(c: Setup, w: World, k: nat, carried: bool, since: int)
    requires Watched(c, w, k, carried, since) && w.now + 1000 >= since + c.cfg.idleTimeoutMs
    requires carried || k < 2
    ensures var e1 := IdleCheck(w.now + 1000);
            var w1 := Step(c, w, e1);
            var e2 := Close(w.now + 1000, 0.0);
            && Enabled(c, w, e1) && Enabled(c, w1, e2)
            && JustDialled(c, Step(c, w1, e2), if carried then 0 else k + 1)
            && Dials(c, w1, e2)
  {}

  /** A watched connection, checked on time, stalls and is dialled again at once. */
  lemma {:induction false} WatchToStall(c: Setup, es: seq<Event>, k: nat, carried: bool, since: int)
    returns (es': seq<Event>)
    requires GoodSetup(c) && IsRun(c, es) && Watched(c, Run(c, es), k, carried, since) && (carried || k < 2)
    ensures IsRun(c, es') && JustDialled(c, Run(c, es'), if carried then 0 else k + 1)
    ensures DialsAtOnce(Run(c, es').log) == DialsAtOnce(Run(c, es).log) + 1
    ensures HeardByte(Run(c, es').log) == HeardByte(Run(c, es).log)
    decreases since + c.cfg.idleTimeoutMs - Run(c, es).now
  {
    hide DialsAtOnce, HeardByte, SilentStalls, CarriedStalls, LastDial, NotedUp, Spaced, Alternate;
    hide JustDialled, IsRun, Run, Step, Enabled;
    var w := Run(c, es);
    var e1 := IdleCheck(w.now + 1000);
    var w1 := Step(c, w, e1);
    if w.now + 1000 < since + c.cfg.idleTimeoutMs {
      CheckOnTime(c, w, k, carried, since);
      RunSnoc(c, es, e1);
      es' := WatchToStall(c, es + [e1], k, carried, since);
    } else {
      var e2 := Close(w.now + 1000, 0.0);
      StallOnTime(c, w, k, carried, since);
      RunSnoc(c, es, e1);
      RunSnoc(c, es + [e1], e2);
      es' := es + [e1] + [e2];
      LogMoves(c, w, e1, w1.log);
      LogMoves(c, w1, e2, Step(c, w1, e2).log);
    }
  }

  /** One silent cycle: connect, stall without a byte, dial again at once. */
  lemma SilentCycle(c: Setup, es: seq<Event>, k: nat) returns (es': seq<Event>)
    requires GoodSetup(c) && k < 2 && IsRun(c, es) && JustDialled(c, Run(c, es), k)
    ensures IsRun(c, es') && JustDialled(c, Run(c, es'), k + 1)
    ensures DialsAtOnce(Run(c, es').log) == DialsAtOnce(Run(c, es).log) + 1
    ensures HeardByte(Run(c, es').log) == HeardByte(Run(c, es).log)
  {
    hide DialsAtOnce, HeardByte, SilentStalls, CarriedStalls, LastDial, NotedUp, Spaced, Alternate;
    hide JustDialled, Watched, IsRun, Run, Step, Enabled;
    var w := Run(c, es);
    var e := Connect(w.now);
    ConnectAtOnce(c, w, k);
    RunSnoc(c, es, e);
    LogMoves(c, w, e, Step(c, w, e).log);
    es' := WatchToStall(c, es + [e], k, false, w.now);
  }

  /** A first connection carries a byte, stalls, and is dialled again at once. */
  lemma CarryingCycle(c: Setup) returns (es: seq<Event>)
    requires GoodSetup(c)
    ensures IsRun(c, es) && JustDialled(c, Run(c, es), 0)
    ensures DialsAtOnce(Run(c, es).log) == 1 && HeardByte(Run(c, es).log)
  {
    hide DialsAtOnce, HeardByte, SilentStalls, CarriedStalls, LastDial, NotedUp, Spaced, Alternate;
    hide JustDialled, Watched, IsRun, Run, Step, Enabled;
    es := FirstDial(c);
    var w0 := Run(c, es);
    var e1, e2 := Connect(w0.now), Data(w0.now);
    var w1 := Step(c, w0, e1);
    ConnectAtOnce(c, w0, 0);
    ByteAtOnce(c, w1);
    RunSnoc(c, es, e1);
    RunSnoc(c, es + [e1], e2);
    LogMoves(c, w1, e2, Step(c, w1, e2).log);
    es := WatchToStall(c, es + [e1] + [e2], 0, true, w0.now);
  }

  lemma FirstDial(c: Setup) returns (es: seq<Event>)
    requires GoodSetup(c)
    ensures IsRun(c, es) && JustDialled(c, Run(c, es), 0)
  {
    assert IsRun(c, []) && Run(c, []) == START;
    es := [] + [Start(1)];
    hide IsRun, Run;
    RunSnoc(c, [], Start(1));
  }

  /** The bound of three is met under every setting, with every timer on time: a connection that
      carried a byte stalls, then two that carry none; each time the supervisor dials again at
      once. */
  lemma ThreeDialsAtOnceHappen(c: Setup) returns (es: seq<Event>)
    requires GoodSetup(c)
    ensures IsRun(c, es) && HeardByte(Run(c, es).log) && DialsAtOnce(Run(c, es).log) == 3
  {
    hide JustDialled, DialsAtOnce, HeardByte, IsRun, Run;
    es := CarryingCycle(c);
    es := SilentCycle(c, es, 0);
    es := SilentCycle(c, es, 1);
  }
}
