/** The command queue over the bridge's writes: a write that is never acknowledged times out, so
    it cannot hold the queue up for good. */
module QueueWrites {
  import opened Messages
  import Q = CommandQueue
  import B = Bridge

  const INTER_COMMAND_GAP_MS := 30

  /** The write timeout, and how late a timer may be served. */
  datatype Setup = Setup(writeTimeoutMs: nat, lag: nat)

  /** The queue, the write it awaits or awaited last, and when the writes so far ended. */
  datatype World = World(q: Q.State, write: B.WriteState, begunAt: int, now: int, ends: seq<int>)

  const START := World(Q.INITIAL, B.Begun(false, 0), 0, 0, [])

  /** When the sleep after a write is over. */
  function GapDue(w: World): int
    requires |w.ends| > 0
  {
    w.ends[|w.ends| - 1] + INTER_COMMAND_GAP_MS
  }

  /** up tells whether the link is connected when a write begins. */
  datatype Event =
    | Send(at: int, msg: Msg, waiter: Q.Waiter, up: bool)
    | Flushed(at: int, ok: bool)
    | Timeout(at: int)
    | Continue(at: int)
    | GapOver(at: int, up: bool)

  /** Timers fire when due, at most lag late; the drain loop continues from a
      settled write before time passes. Nothing obliges the socket to acknowledge. */
  predicate Enabled(c: Setup, w: World, e: Event) {
    && e.at >= w.now
    && (w.write.timer.Some? ==> e.at <= w.write.timer.value + c.lag)
    && (w.q.drain.Writing? && w.write.settled ==> e.at == w.now)
    && (w.q.drain.Gap? && |w.ends| > 0 ==> e.at <= GapDue(w) + c.lag)
    && match e
       case Send(_, _, _, _) => true
       case Flushed(_, _) => w.q.drain.Writing?
       case Timeout(at) => w.write.timer.Some? && at >= w.write.timer.value
       case Continue(_) => w.q.drain.Writing? && w.write.settled
       case GapOver(at, _) => w.q.drain.Gap? && |w.ends| > 0 && at >= GapDue(w)
  }

  /** The queue moved on; if it began a write, that is the one awaited now. */
  function Moved(c: Setup, w: World, q: Q.State, at: int, up: bool): World {
    if q.drain.Writing? && !w.q.drain.Writing? then World(q, B.Begun(up, at + c.writeTimeoutMs), at, at, w.ends)
    else w.(q := q, now := at)
  }

  function Step(c: Setup, w: World, e: Event): World
    requires Enabled(c, w, e)
  {
    match e
    case Send(at, msg, waiter, up) => Moved(c, w, Q.OnSend(w.q, msg, waiter, at), at, up)
    case Flushed(at, ok) => w.(write := B.OnCallback(w.write, B.Callback.Flushed(ok)), now := at)
    case Timeout(at) => w.(write := B.OnCallback(w.write, B.TimedOut), now := at)
    case Continue(at) =>
      w.(q := Q.OnWriteDone(w.q, w.write.outcome == B.Resolved), now := at, ends := w.ends + [at])
    case GapOver(at, up) => Moved(c, w, Q.OnGapOver(w.q, at), at, up)
  }

  /** A run: the states passed through. */
  ghost predicate IsRun(c: Setup, ws: seq<World>, es: seq<Event>) {
    && |ws| == |es| + 1 && ws[0] == START
    && forall i :: 0 <= i < |es| ==> Enabled(c, ws[i], es[i]) && ws[i + 1] == Step(c, ws[i], es[i])
  }

  /** The awaited write is settled, or its timeout is armed and not yet overdue. */
  ghost predicate Timed(c: Setup, w: World) {
    && (w.write.settled <==> w.write.timer.None?)
    && (!w.q.drain.Writing? ==> w.write.settled)
    && (!w.write.settled ==> w.write.timer.value == w.begunAt + c.writeTimeoutMs)
    && (w.write.settled <==> w.write.outcome != B.Waiting)
    && (w.q.drain.Writing? ==> w.begunAt <= w.now <= w.begunAt + c.writeTimeoutMs + c.lag)
  }

  lemma SendKeepsWriting(q: Q.State, msg: Msg, waiter: Q.Waiter, now: int)
    requires q.drain.Writing?
    ensures Q.OnSend(q, msg, waiter, now).drain == q.drain
  {}

  lemma TimedKept(c: Setup, w: World, e: Event)
    requires Enabled(c, w, e) && Timed(c, w)
    ensures Timed(c, Step(c, w, e))
  {
    if e.Send? && w.q.drain.Writing? { SendKeepsWriting(w.q, e.msg, e.waiter, e.at); }
    hide Q.OnSend, Q.OnGapOver;
  }

  /** The queue's own runs and invariants carry over. */
  lemma QueueInvKept(c: Setup, w: World, e: Event)
    requires Enabled(c, w, e) && Q.Inv(w.q)
    ensures Q.Inv(Step(c, w, e).q)
  {
    hide Q.Inv, Q.OnSend, Q.OnGapOver;
    match e {
      case Send(at, msg, waiter, _) => Q.SendKeeps(w.q, msg, waiter, at);
      case Flushed(_, _) =>
      case Timeout(_) =>
      case Continue(_) => Q.WriteDoneKeeps(w.q, w.write.outcome == B.Resolved);
      case GapOver(at, _) => Q.GapKeeps(w.q, at);
    }
  }

  lemma {:induction false} EveryRunTimed(c: Setup, ws: seq<World>, es: seq<Event>, i: nat)
    requires IsRun(c, ws, es) && i < |ws|
    ensures Timed(c, ws[i]) && Q.Inv(ws[i].q)
  {
    hide Q.Inv, Step, Enabled;
    if i == 0 {
      EmptyQueue();
    } else {
      EveryRunTimed(c, ws, es, i - 1);
      assert Enabled(c, ws[i - 1], es[i - 1]) && ws[i] == Step(c, ws[i - 1], es[i - 1]);
      TimedKept(c, ws[i - 1], es[i - 1]);
      QueueInvKept(c, ws[i - 1], es[i - 1]);
    }
  }

  lemma EmptyQueue()
    ensures Q.Inv(Q.INITIAL)
  {
    Q.EveryRunInv([Q.INITIAL], [], 0);
  }

  /** A write never wedges the queue, even if the socket never acknowledges it: it has been in
      flight for at most the write timeout plus lag, and it can always be ended, by continuing
      at once if it is settled, else by its timeout, which rejects it. */
  lemma NeverWedged(c: Setup, ws: seq<World>, es: seq<Event>, i: nat)
    requires IsRun(c, ws, es) && i < |ws| && ws[i].q.drain.Writing?
    ensures var w := ws[i];
            && w.now <= w.begunAt + c.writeTimeoutMs + c.lag
            && (w.write.settled ==> Enabled(c, w, Continue(w.now)) && Step(c, w, Continue(w.now)).q.drain.Gap?)
            && (!w.write.settled ==>
                  var due := w.begunAt + c.writeTimeoutMs;
                  var at := if w.now < due then due else w.now;
                  && Enabled(c, w, Timeout(at))
                  && Step(c, w, Timeout(at)).write.outcome == B.Rejected
                  && Enabled(c, Step(c, w, Timeout(at)), Continue(at)))
  {
    EveryRunTimed(c, ws, es, i);
    hide IsRun, Q.Inv;
  }

  // ---------- the bus settles between writes ----------

  /** Each write begins 30 ms or more after the one before ended. */
  ghost predicate Apart(handed: seq<Q.Handed>, ends: seq<int>) {
    && |ends| <= |handed| <= |ends| + 1
    && (forall j :: 0 <= j < |ends| ==> handed[j].at <= ends[j])
    && (forall j :: 0 <= j < |ends| && j + 1 < |handed| ==> ends[j] + 30 <= handed[j + 1].at)
  }

  ghost predicate Settles(w: World) {
    && Apart(w.q.handed, w.ends)
    && |w.q.handed| == |w.ends| + (if w.q.drain.Writing? then 1 else 0)
    && (w.q.drain.Writing? ==> w.q.handed[|w.ends|].at <= w.now)
    && (w.q.drain.Gap? ==> |w.ends| > 0)
    && (w.q.drain.Idle? && |w.ends| > 0 ==> w.now >= w.ends[|w.ends| - 1] + 30)
  }

  lemma ApartBegins(handed: seq<Q.Handed>, ends: seq<int>, h: Q.Handed)
    requires Apart(handed, ends) && |handed| == |ends|
    requires |ends| > 0 ==> h.at >= ends[|ends| - 1] + 30
    ensures Apart(handed + [h], ends)
  {}

  lemma ApartEnds(handed: seq<Q.Handed>, ends: seq<int>, at: int)
    requires Apart(handed, ends) && |handed| == |ends| + 1 && handed[|ends|].at <= at
    ensures Apart(handed, ends + [at])
  {}

  /** What a queue step that may begin a write does to the writes begun. */
  predicate BeginsAt(q: Q.State, q': Q.State, at: int) {
    || (q'.drain.Idle? && q'.handed == q.handed)
    || (q'.drain.Writing? && q'.handed == q.handed + [Q.Handed(q'.drain.job, at)])
  }

  lemma GapBegins(q: Q.State, at: int)
    requires q.drain.Gap?
    ensures BeginsAt(q, Q.OnGapOver(q, at), at)
  {
    var k := Q.PumpMeans(q, at);
  }

  lemma MovedSettles(c: Setup, w: World, q: Q.State, at: int, up: bool)
    requires Settles(w) && at >= w.now && !w.q.drain.Writing? && BeginsAt(w.q, q, at)
    requires |w.ends| > 0 ==> at >= w.ends[|w.ends| - 1] + 30
    ensures Settles(Moved(c, w, q, at, up))
  {
    hide Apart;
    if q.drain.Writing? { ApartBegins(w.q.handed, w.ends, Q.Handed(q.drain.job, at)); }
  }

  lemma SendWaitsOrBegins(q: Q.State, msg: Msg, waiter: Q.Waiter, at: int)
    requires Q.Inv(q)
    ensures var q' := Q.OnSend(q, msg, waiter, at);
            if q.drain.Idle? then BeginsAt(q, q', at) else q'.drain == q.drain && q'.handed == q.handed
  {
    assert Q.Bounded(q);
    Q.SendMeans(q, msg, waiter, at);
    hide Q.Inv, Q.OnSend, Q.Bounded;
  }

  lemma SettlesKept(c: Setup, w: World, e: Event)
    requires Enabled(c, w, e) && Q.Inv(w.q) && Settles(w)
    ensures Settles(Step(c, w, e))
  {
    hide Q.Inv, Q.OnSend, Q.OnGapOver, Apart;
    match e {
      case Send(at, msg, waiter, up) =>
        SendWaitsOrBegins(w.q, msg, waiter, at);
        if w.q.drain.Idle? { MovedSettles(c, w, Q.OnSend(w.q, msg, waiter, at), at, up); }
      case Continue(at) => ApartEnds(w.q.handed, w.ends, at);
      case GapOver(at, up) =>
        GapBegins(w.q, at);
        MovedSettles(c, w, Q.OnGapOver(w.q, at), at, up);
      case _ =>
    }
  }

  /** In every run the writes handed to the bridge never overlap, and each begins 30 ms or more
      after the one before it ended, so the bus has time to settle. */
  lemma {:induction false} BusSettles(c: Setup, ws: seq<World>, es: seq<Event>, i: nat)
    requires IsRun(c, ws, es) && i < |ws|
    ensures Settles(ws[i])
  {
    hide Q.Inv, Step, Enabled;
    if i > 0 {
      BusSettles(c, ws, es, i - 1);
      EveryRunTimed(c, ws, es, i - 1);
      assert Enabled(c, ws[i - 1], es[i - 1]) && ws[i] == Step(c, ws[i - 1], es[i - 1]);
      SettlesKept(c, ws[i - 1], es[i - 1]);
    }
  }
}
