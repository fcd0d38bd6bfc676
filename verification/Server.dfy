/** The guardian's server: one app client at a time, a late-close guard, and a grace period
    before a lost upstream link is passed on to the app. */
module Server {
  import opened Protocol
  import opened Options
  import G = Guardian

  const UPSTREAM_LOST_GRACE_MS := 1500

  /** The variables of main(): the guardian, the client socket, the grace timer's due time. */
  datatype State = State(guardian: G.State, client: Option<nat>, lostTimer: Option<int>)

  const INITIAL := State(G.INITIAL, None, None)

  /** What a handler asks of the outside world. */
  datatype Effects = Effects(toBus: seq<Bytes>, destroyed: Option<nat>)

  const NOTHING := Effects([], None)

  // ---------- what each callback does ----------

  function OnAccept(s: State, sock: nat): (State, Effects) {
    (s.(client := Some(sock), guardian := G.OnConnect(s.guardian)), Effects([], s.client))
  }

  /** Data is forwarded verbatim (and lost while the link is down), then observed. */
  function OnData(c: G.Config, s: State, chunk: Bytes, up: bool): (State, Effects) {
    (s.(guardian := G.OnBytes(c, s.guardian, chunk)), Effects(if up then [chunk] else [], None))
  }

  function OnClose(c: G.Config, s: State, sock: nat, now: int, up: bool): (State, Effects) {
    if s.client == Some(sock) then
      var (g, writes) := G.OnDisconnect(c, s.guardian, now, up);
      (s.(client := None, guardian := g), Effects(writes, None))
    else (s, NOTHING)
  }

  function OnTick(c: G.Config, s: State, now: int, up: bool): (State, Effects) {
    var (g, writes) := G.OnTick(c, s.guardian, now, up);
    (s.(guardian := g), Effects(writes, None))
  }

  function OnUpstreamConnected(s: State): State { s.(lostTimer := None) }

  function OnUpstreamDisconnected(s: State, now: int): State {
    if s.lostTimer.Some? then s else s.(lostTimer := Some(now + UPSTREAM_LOST_GRACE_MS))
  }

  function OnGraceOver(s: State, up: bool): (State, Effects) {
    (s.(lostTimer := None), if up || s.client.None? then NOTHING else Effects([], s.client))
  }

  // ---------- the closure variables as an object ----------

  class Server {
    const guardian: G.Guardian
    var client: Option<nat>
    var upstreamLostTimer: Option<int>

    ghost function Abs(): State
      reads this, guardian
    {
      State(guardian.Abs(), client, upstreamLostTimer)
    }

    constructor (cfg: G.Config)
      ensures fresh(guardian) && guardian.cfg == cfg && Abs() == INITIAL
    {
      guardian := new G.Guardian(cfg);
      client, upstreamLostTimer := None, None;
    }

    method Accept(sock: nat) returns (e: Effects)
      modifies this, guardian
      ensures (Abs(), e) == OnAccept(old(Abs()), sock)
    {
      e := NOTHING;
      if client.Some? { e := Effects([], Some(client.value)); }
      client := Some(sock);
      var writes := guardian.SetClientConnected(true, 0, false);
    }

    method Data(chunk: Bytes, up: bool) returns (e: Effects)
      modifies guardian
      ensures (Abs(), e) == OnData(guardian.cfg, old(Abs()), chunk, up)
    {
      e := Effects(if up then [chunk] else [], None);
      guardian.Observe(chunk);
    }

    method Close(sock: nat, now: int, up: bool) returns (e: Effects)
      modifies this, guardian
      ensures (Abs(), e) == OnClose(guardian.cfg, old(Abs()), sock, now, up)
    {
      e := NOTHING;
      if client == Some(sock) {
        client := None;
        var writes := guardian.SetClientConnected(false, now, up);
        e := Effects(writes, None);
      }
    }

    method Tick(now: int, up: bool) returns (e: Effects)
      modifies guardian
      ensures (Abs(), e) == OnTick(guardian.cfg, old(Abs()), now, up)
    {
      var writes := guardian.Tick(now, up);
      e := Effects(writes, None);
    }

    method UpstreamConnected()
      modifies this`upstreamLostTimer
      ensures Abs() == OnUpstreamConnected(old(Abs()))
    {
      upstreamLostTimer := None;
    }

    method UpstreamDisconnected(now: int)
      modifies this`upstreamLostTimer
      ensures Abs() == OnUpstreamDisconnected(old(Abs()), now)
    {
      if upstreamLostTimer.Some? { return; }
      upstreamLostTimer := Some(now + UPSTREAM_LOST_GRACE_MS);
    }

    method GraceOver(up: bool) returns (e: Effects)
      modifies this`upstreamLostTimer
      ensures (Abs(), e) == OnGraceOver(old(Abs()), up)
    {
      upstreamLostTimer := None;
      if up || client.None? { return NOTHING; }
      e := Effects([], Some(client.value));
    }
  }

  // ---------- runs ----------

  datatype Author = App(sock: nat) | Guard

  /** One handler's writes to the bus: when, by whom, and who was the client then. */
  datatype Entry = Entry(at: int, author: Author, writes: seq<Bytes>, client: Option<nat>)

  /** A hold: when it began, with what intent, from which entry of the bus log, how often it
      asserted the intent, when and how it ended at its deadline, when it last asserted, and
      whether the link has been up since it began. */
  datatype Hold = Hold(start: int, intent: G.Intent, from: nat, asserts: nat, ended: Option<(int, bool)>,
                       lastAt: int, upAll: bool)

  /** An app connection cut by the grace timer: in which outage, since when down, when. */
  datatype Cut = Cut(outage: nat, since: int, at: int)

  /** The grace timer fired: in which outage, since when down, when, and with what client. */
  datatype Fired = Fired(outage: nat, since: int, at: int, client: Option<nat>)

  /** The server in its environment. Sockets are numbered; a live one may still send, a doomed
      one has been destroyed and owes one close. up is the link. The rest is history. */
  datatype World = World(s: State, next: nat, live: set<nat>, doomed: set<nat>, up: bool, now: int,
                         bus: seq<Entry>, hold: Option<Hold>, outages: nat, downSince: int, cuts: seq<Cut>,
                         graces: seq<Fired>)

  datatype Event =
    | Accept(at: int)
    | Data(at: int, sock: nat, chunk: Bytes)
    | Closed(at: int, sock: nat)
    | Tick(at: int)
    | LinkUp(at: int)
    | LinkDown(at: int)
    | Grace(at: int)

  /** The guardian's settings, and how late a timer may be served. */
  datatype Setup = Setup(cfg: G.Config, lag: nat)

  predicate GoodSetup(c: Setup) { c.cfg.keepAliveMs > 0 && c.cfg.failoverMaxMs > 0 }

  const START := World(INITIAL, 0, {}, {}, false, 0, [], None, 0, 0, [], [])

  /** No timer is overdue by more than lag. */
  predicate InTime(c: Setup, w: World, at: int) {
    && (w.s.guardian.timer.Due? ==> at <= w.s.guardian.timer.at + c.lag)
    && (w.s.lostTimer.Some? ==> at <= w.s.lostTimer.value + c.lag)
  }

  /** Which events can happen. Time does not run back; timers fire when due, at most lag
      late; a destroyed socket sends nothing and closes once; link notifications
      alternate (module Process proves that the upstream client's do). */
  predicate Enabled(c: Setup, w: World, e: Event) {
    && e.at >= w.now
    && InTime(c, w, e.at)
    && match e
       case Accept(_) => true
       case Data(_, sock, _) => sock in w.live
       case Closed(_, sock) => sock in w.live || sock in w.doomed
       case Tick(at) => w.s.guardian.timer.Due? && at >= w.s.guardian.timer.at
       case LinkUp(_) => !w.up
       case LinkDown(_) => w.up
       case Grace(at) => w.s.lostTimer.Some? && at >= w.s.lostTimer.value
  }

  function Log(bus: seq<Entry>, at: int, author: Author, e: Effects, s: State): seq<Entry> {
    if e.toBus == [] then bus else bus + [Entry(at, author, e.toBus, s.client)]
  }

  function Doom(w: World, e: Effects): World {
    if e.destroyed.Some? && e.destroyed.value in w.live then
      w.(live := w.live - {e.destroyed.value}, doomed := w.doomed + {e.destroyed.value})
    else w
  }

  function Step(c: Setup, w: World, e: Event): World {
    match e
    case Accept(at) =>
      var (s, fx) := OnAccept(w.s, w.next);
      var w' := Doom(w, fx);
      w'.(s := s, next := w.next + 1, live := w'.live + {w.next}, now := at, hold := None)
    case Data(at, sock, chunk) =>
      var (s, fx) := OnData(c.cfg, w.s, chunk, w.up);
      w.(s := s, now := at, bus := Log(w.bus, at, App(sock), fx, s))
    case Closed(at, sock) =>
      var (s, fx) := OnClose(c.cfg, w.s, sock, at, w.up);
      w.(s := s, now := at, live := w.live - {sock}, doomed := w.doomed - {sock},
         bus := Log(w.bus, at, Guard, fx, s),
         hold := if w.s.client == Some(sock) && s.guardian.phase == G.Holding
                 then Some(Hold(at, s.guardian.intent, |w.bus|, 1, None, at, w.up)) else w.hold)
    case Tick(at) =>
      var (s, fx) := OnTick(c.cfg, w.s, at, w.up);
      w.(s := s, now := at, bus := Log(w.bus, at, Guard, fx, s),
         hold := if w.hold.None? then None
                 else if s.guardian.phase == G.Holding
                 then Some(w.hold.value.(asserts := w.hold.value.asserts + 1, lastAt := at))
                 else Some(w.hold.value.(ended := Some((at, w.up)))))
    case LinkUp(at) => w.(s := OnUpstreamConnected(w.s), up := true, now := at)
    case LinkDown(at) =>
      w.(s := OnUpstreamDisconnected(w.s, at), up := false, now := at, outages := w.outages + 1, downSince := at,
           hold := if w.hold.Some? && w.hold.value.ended.None? then Some(w.hold.value.(upAll := false)) else w.hold)
    case Grace(at) =>
      var (s, fx) := OnGraceOver(w.s, w.up);
      Doom(w, fx).(s := s, now := at,
                   graces := w.graces + [Fired(w.outages, w.downSince, at, w.s.client)],
                   cuts := if fx.destroyed.Some? then w.cuts + [Cut(w.outages, w.downSince, at)] else w.cuts)
  }

  predicate IsRun(c: Setup, es: seq<Event>) {
    es == [] || (IsRun(c, es[..|es| - 1]) && Enabled(c, Run(c, es[..|es| - 1]), es[|es| - 1]))
  }

  function Run(c: Setup, es: seq<Event>): World {
    if es == [] then START else Step(c, Run(c, es[..|es| - 1]), es[|es| - 1])
  }

  // ---------- invariants ----------

  /** Sockets: only the client is live, and the client still owes its close. */
  ghost predicate SocketsOk(w: World) {
    && (forall k :: k in w.live ==> w.s.client == Some(k))
    && (w.s.client.Some? ==> w.s.client.value in w.live || w.s.client.value in w.doomed)
    && (forall k :: k in w.live || k in w.doomed ==> k < w.next)
    && w.live !! w.doomed
  }

  /** The guardian's phase mirrors the client variable and its timer. */
  ghost predicate PhaseOk(w: World) {
    && (w.s.client.Some? <==> w.s.guardian.phase == G.Relaying)
    && G.TimerDiscipline(w.s.guardian)
  }

  /** Single writer: guardian writes happen with no client, app writes come from the client. */
  ghost predicate SingleWriter(bus: seq<Entry>) {
    forall i :: 0 <= i < |bus| ==>
      match bus[i].author
      case Guard => bus[i].client.None?
      case App(k) => bus[i].client == Some(k)
  }

  /** An armed grace timer means: down ever since it was armed. */
  ghost predicate GraceOk(w: World) {
    && (w.s.lostTimer.Some? ==> !w.up && w.s.lostTimer.value == w.downSince + 1500)
    && (w.s.lostTimer.Some? ==> w.outages > 0 && forall i :: 0 <= i < |w.cuts| ==> w.cuts[i].outage < w.outages)
  }

  /** No cut before the link was down for the whole grace period; at most one per outage. */
  ghost predicate CutsOk(cuts: seq<Cut>, outages: nat) {
    && (forall i :: 0 <= i < |cuts| ==>
          cuts[i].at >= cuts[i].since + 1500 && cuts[i].outage <= outages)
    && (forall i, j :: 0 <= i < j < |cuts| ==> cuts[i].outage < cuts[j].outage)
  }

  lemma SocketsKept(c: Setup, w: World, e: Event)
    requires Enabled(c, w, e) && SocketsOk(w)
    ensures SocketsOk(Step(c, w, e))
  {}

  lemma PhaseKept(c: Setup, w: World, e: Event)
    requires Enabled(c, w, e) && SocketsOk(w) && PhaseOk(w)
    ensures PhaseOk(Step(c, w, e))
  {}

  lemma WriterKept(c: Setup, w: World, e: Event)
    requires Enabled(c, w, e) && SocketsOk(w) && PhaseOk(w) && SingleWriter(w.bus)
    ensures SingleWriter(Step(c, w, e).bus)
  {}

  lemma GraceKept(c: Setup, w: World, e: Event)
    requires Enabled(c, w, e) && GraceOk(w) && CutsOk(w.cuts, w.outages)
    ensures GraceOk(Step(c, w, e)) && CutsOk(Step(c, w, e).cuts, Step(c, w, e).outages)
  {}

  // ---------- one hold from beginning to end ----------

  /** One keep-alive of hold h: its intent, sent with no client, before the deadline. */
  ghost predicate IsAssert(c: G.Config, h: Hold, e: Entry) {
    && e.author == Guard && e.client.None?
    && e.writes == G.KeepAlive(h.intent, c.pumpAddr)
    && h.start <= e.at < h.start + c.failoverMaxMs
  }

  /** The bus log between two indices consists of keep-alives of hold h. */
  ghost predicate Asserts(c: G.Config, h: Hold, bus: seq<Entry>, hi: nat) {
    && h.from <= hi <= |bus|
    && hi - h.from <= h.asserts
    && forall i :: h.from <= i < hi ==> IsAssert(c, h, bus[i])
  }

  /** A hold still going on. */
  ghost predicate HoldGoing(c: G.Config, w: World, h: Hold) {
    && w.s.guardian.phase == G.Holding && h.intent.IsRunning()
    && w.s.guardian.intent == h.intent
    && w.s.guardian.deadline == h.start + c.failoverMaxMs
    && w.s.guardian.timer.Due?
    && h.start + h.asserts * c.keepAliveMs <= w.s.guardian.timer.at < h.start + c.failoverMaxMs + c.keepAliveMs
    && Asserts(c, h, w.bus, |w.bus|)
  }

  /** A hold that reached its deadline: asserts, then one release if the link was up then. */
  ghost predicate HoldEnded(c: Setup, w: World, h: Hold, at: int, up: bool) {
    && w.s.guardian.phase == G.Idle && h.intent.IsRunning()
    && h.start + c.cfg.failoverMaxMs <= at < h.start + c.cfg.failoverMaxMs + c.cfg.keepAliveMs + c.lag
    && if up then
         && |w.bus| > 0 && Asserts(c.cfg, h, w.bus, |w.bus| - 1)
         && w.bus[|w.bus| - 1] == Entry(at, Guard, G.Release(c.cfg.pumpAddr), None)
       else Asserts(c.cfg, h, w.bus, |w.bus|)
  }

  ghost predicate HoldOk(c: Setup, w: World) {
    match w.hold
    case None => w.s.guardian.phase != G.Holding
    case Some(h) =>
      && h.asserts >= 1 && (h.asserts - 1) * c.cfg.keepAliveMs < c.cfg.failoverMaxMs
      && (match h.ended
          case None => HoldGoing(c.cfg, w, h)
          case Some(end) => HoldEnded(c, w, h, end.0, end.1))
  }

  lemma HoldBegins(c: Setup, w: World, e: Event)
    requires GoodSetup(c) && Enabled(c, w, e) && SocketsOk(w) && PhaseOk(w) && HoldOk(c, w)
    requires e.Closed? && w.s.client == Some(e.sock)
    ensures HoldOk(c, Step(c, w, e))
  {
    assert w.hold.None?;
  }

  lemma HoldTicks(c: Setup, w: World, e: Event)
    requires GoodSetup(c) && Enabled(c, w, e) && PhaseOk(w) && HoldOk(c, w) && e.Tick?
    ensures HoldOk(c, Step(c, w, e))
  {
    var h := w.hold.value;
    assert HoldGoing(c.cfg, w, h);
    var w' := Step(c, w, e);
    if e.at < w.s.guardian.deadline {
      assert h.asserts * c.cfg.keepAliveMs < c.cfg.failoverMaxMs;
      assert (h.asserts + 1) * c.cfg.keepAliveMs == h.asserts * c.cfg.keepAliveMs + c.cfg.keepAliveMs;
      forall i | h.from <= i < |w'.bus| ensures IsAssert(c.cfg, w'.hold.value, w'.bus[i]) {
        if i < |w.bus| { assert IsAssert(c.cfg, h, w.bus[i]); }
      }
    } else {
      forall i | h.from <= i < |w.bus| ensures IsAssert(c.cfg, w'.hold.value, w.bus[i]) {
        assert IsAssert(c.cfg, h, w.bus[i]);
      }
    }
  }

  lemma HoldKept(c: Setup, w: World, e: Event)
    requires GoodSetup(c) && Enabled(c, w, e) && SocketsOk(w) && PhaseOk(w) && HoldOk(c, w)
    ensures HoldOk(c, Step(c, w, e))
  {
    if e.Closed? && w.s.client == Some(e.sock) {
      HoldBegins(c, w, e);
    } else if e.Tick? {
      HoldTicks(c, w, e);
    } else if e.Data? {
      assert w.s.client.Some?;
    }
  }

  /** Everything above, of every run of the server. */
  ghost predicate Safe(c: Setup, w: World) {
    && SocketsOk(w) && PhaseOk(w) && SingleWriter(w.bus)
    && GraceOk(w) && CutsOk(w.cuts, w.outages) && HoldOk(c, w)
  }

  lemma {:induction false} EveryRunSafe(c: Setup, es: seq<Event>)
    requires GoodSetup(c) && IsRun(c, es)
    ensures Safe(c, Run(c, es))
    decreases |es|
  {
    if es != [] {
      var w, e := Run(c, es[..|es| - 1]), es[|es| - 1];
      EveryRunSafe(c, es[..|es| - 1]);
      SocketsKept(c, w, e);
      PhaseKept(c, w, e);
      WriterKept(c, w, e);
      GraceKept(c, w, e);
      HoldKept(c, w, e);
    }
  }

  function CeilDiv(a: int, b: int): int
    requires b > 0
  {
    (a + b - 1) / b
  }

  lemma AtMostCeil(n: int, a: int, b: int)
    requires b > 0 && (n - 1) * b < a
    ensures n <= CeilDiv(a, b)
  {
    var q := (a + b - 1) / b;
    assert a + b - 1 == q * b + (a + b - 1) % b;
    assert (n - 1) * b < q * b;
  }

  /** An armed keep-alive is never more than lag overdue. */
  lemma ClockInTime(c: Setup, es: seq<Event>)
    requires GoodSetup(c) && IsRun(c, es)
    ensures var w := Run(c, es); w.s.guardian.timer.Due? ==> w.now <= w.s.guardian.timer.at + c.lag
  {
    if es != [] {
      var w, e := Run(c, es[..|es| - 1]), es[|es| - 1];
      assert Enabled(c, w, e) && Run(c, es) == Step(c, w, e);
      hide Run, IsRun;
      StepInTime(c, w, e);
    }
  }

  lemma StepInTime(c: Setup, w: World, e: Event)
    requires GoodSetup(c) && Enabled(c, w, e)
    ensures var w' := Step(c, w, e); w'.s.guardian.timer.Due? ==> w'.now <= w'.s.guardian.timer.at + c.lag
  {}

  lemma TimerBeforeEnd(c: G.Config, w: World, h: Hold)
    requires HoldGoing(c, w, h)
    ensures w.s.guardian.timer.Due? && w.s.guardian.timer.at < h.start + c.failoverMaxMs + c.keepAliveMs
  {}

  /** The bound on a hold, whatever else happens meanwhile: at most ceil(max / keepAlive)
      keep-alives, all before the deadline, then at most one release, exactly one if the link
      was up at the deadline; and the guardian is idle before deadline + keepAlive + lag. */
  lemma HoldIsBounded(c: Setup, es: seq<Event>)
    requires GoodSetup(c) && IsRun(c, es) && Run(c, es).hold.Some?
    ensures var w := Run(c, es); var h := w.hold.value;
            && h.asserts <= CeilDiv(c.cfg.failoverMaxMs, c.cfg.keepAliveMs)
            && (h.ended.None? ==> HoldGoing(c.cfg, w, h)
                                  && w.now < h.start + c.cfg.failoverMaxMs + c.cfg.keepAliveMs + c.lag)
            && (h.ended.Some? ==> HoldEnded(c, w, h, h.ended.value.0, h.ended.value.1))
  {
    hide Run, IsRun, HoldGoing, HoldEnded, SocketsOk, PhaseOk, SingleWriter, GraceOk, CutsOk;
    EveryRunSafe(c, es);
    ClockInTime(c, es);
    if Run(c, es).hold.value.ended.None? { TimerBeforeEnd(c.cfg, Run(c, es), Run(c, es).hold.value); }
    AtMostCeil(Run(c, es).hold.value.asserts, c.cfg.failoverMaxMs, c.cfg.keepAliveMs);
  }

  /** Two branches of the server are never taken: the grace timer finds the link still down
      whenever it fires, and a lost link never finds the timer already armed. */
  lemma GraceRechecksAreDead(c: Setup, es: seq<Event>, e: Event)
    requires GoodSetup(c) && IsRun(c, es) && Enabled(c, Run(c, es), e)
    ensures e.Grace? ==> !Run(c, es).up
    ensures e.LinkDown? ==> Run(c, es).s.lostTimer.None?
  {
    EveryRunSafe(c, es);
  }

  // ---------- the relay is transparent ----------

  /** The chunks the app sent while the link was up, */
  function Relayed(c: Setup, es: seq<Event>): seq<Bytes> {
    if es == [] then []
    else
      var r := Relayed(c, es[..|es| - 1]);
      match es[|es| - 1]
      case Data(_, _, chunk) => if Run(c, es[..|es| - 1]).up then r + [chunk] else r
      case _ => r
  }

  /** and what the app's writes to the bus were. */
  function AppWrites(bus: seq<Entry>): seq<Bytes> {
    if bus == [] then []
    else if bus[|bus| - 1].author.App? then AppWrites(bus[..|bus| - 1]) + bus[|bus| - 1].writes
    else AppWrites(bus[..|bus| - 1])
  }

  lemma AppWritesLog(bus: seq<Entry>, at: int, author: Author, e: Effects, s: State)
    ensures AppWrites(Log(bus, at, author, e, s)) == if author.App? then AppWrites(bus) + e.toBus else AppWrites(bus)
  {
    var entry := Entry(at, author, e.toBus, s.client);
    assert (bus + [entry])[..|bus|] == bus;
    assert AppWrites(bus) + [] == AppWrites(bus);
  }

  lemma StepRelays(c: Setup, w: World, e: Event)
    ensures AppWrites(Step(c, w, e).bus)
         == if e.Data? && w.up then AppWrites(w.bus) + [e.chunk] else AppWrites(w.bus)
  {
    hide AppWrites, Log;
    match e {
      case Data(at, sock, chunk) =>
        var (s, fx) := OnData(c.cfg, w.s, chunk, w.up);
        AppWritesLog(w.bus, at, App(sock), fx, s);
        assert AppWrites(w.bus) + [] == AppWrites(w.bus);
      case Closed(at, sock) =>
        var (s, fx) := OnClose(c.cfg, w.s, sock, at, w.up);
        AppWritesLog(w.bus, at, Guard, fx, s);
      case Tick(at) =>
        var (s, fx) := OnTick(c.cfg, w.s, at, w.up);
        AppWritesLog(w.bus, at, Guard, fx, s);
      case _ =>
    }
  }

  /** In every run the app's part of the bus traffic is exactly the chunks it sent while the
      link was up, in order and unaltered. */
  lemma {:induction false} RelayIsTransparent(c: Setup, es: seq<Event>)
    ensures AppWrites(Run(c, es).bus) == Relayed(c, es)
    decreases |es|
  {
    hide AppWrites, Step;
    if es != [] {
      RelayIsTransparent(c, es[..|es| - 1]);
      StepRelays(c, Run(c, es[..|es| - 1]), es[|es| - 1]);
    } else {
      NoWrites();
    }
  }

  lemma NoWrites()
    ensures AppWrites([]) == []
  {}
}
