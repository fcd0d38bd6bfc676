/** What the link supervisor waits for: each backoff step, each connect timeout and each stall,
    measured against the history of the link. */
module UpstreamPace {
  import opened Options
  import opened Upstream

  // ---------- the history read back ----------

  /** Backoff waits begun since the link was last connected; the waits after three silent stalls
      are not counted. */
  function Waits(log: seq<Entry>): nat {
    if log == [] || log[|log| - 1].Up? then 0
    else
      var before := log[..|log| - 1];
      Waits(before) + (if log[|log| - 1].Wait? && SilentStalls(before) < 3 then 1 else 0)
  }

  /** The backoff table, with up to a fifth of jitter. */
  predicate IsStep(k: nat, delay: int) {
    match k
    case 0 => 500 <= delay < 600
    case 1 => 1000 <= delay < 1200
    case 2 => 2000 <= delay < 2400
    case 3 => 3000 <= delay < 3600
    case _ => 5000 <= delay < 6000
  }

  function LastWait(log: seq<Entry>): Option<int> {
    if log == [] then None
    else if log[|log| - 1].Wait? then Some(log[|log| - 1].due)
    else LastWait(log[..|log| - 1])
  }

  /** When the current connection was last heard from: its last byte, or its beginning. */
  function LastHeard(log: seq<Entry>): Option<int> {
    if log == [] then None
    else if log[|log| - 1].Byte? || log[|log| - 1].Up? then Some(log[|log| - 1].at)
    else LastHeard(log[..|log| - 1])
  }

  /** Every wait has the length its place in the sequence of failures calls for. */
  predicate Stepped(log: seq<Entry>) {
    log == [] ||
    (var before, last := log[..|log| - 1], log[|log| - 1];
     && Stepped(before)
     && (last.Wait? ==> if SilentStalls(before) >= 3 then last.due == last.at + 30_000
                        else IsStep(Waits(before), last.due - last.at)))
  }

  /** Every dial but the first and those made at once waited until the wait before it was due. */
  predicate Waited(log: seq<Entry>) {
    log == [] ||
    (var before, last := log[..|log| - 1], log[|log| - 1];
     && Waited(before)
     && (last.Dial? && !last.atOnce && before != [] ==> LastWait(before).Some? && last.at >= LastWait(before).value))
  }

  // ---------- the invariant ----------

  predicate BackoffOk(w: World) {
    && w.s.reconnectAttempt == Waits(w.log) && (w.s.connected ==> Waits(w.log) == 0)
    && Stepped(w.log) && Waited(w.log)
    && (w.s.reconnectTimer.Some? ==> LastWait(w.log) == w.s.reconnectTimer)
    && (!w.started ==> w.log == [])
  }

  predicate ClockOk(c: Setup, w: World) {
    && (w.s.connected ==> LastHeard(w.log) == Some(w.s.lastRxAt))
    && (w.s.connectTimer.Some? ==>
          LastDial(w.log).Some? && w.s.connectTimer.value == LastDial(w.log).value + c.cfg.connectTimeoutMs)
  }

  /** One more entry. */
  lemma Snoc(log: seq<Entry>, x: Entry)
    ensures Waits(log + [x]) ==
              if x.Up? then 0 else Waits(log) + (if x.Wait? && SilentStalls(log) < 3 then 1 else 0)
    ensures LastWait(log + [x]) == if x.Wait? then Some(x.due) else LastWait(log)
    ensures LastHeard(log + [x]) == if x.Byte? || x.Up? then Some(x.at) else LastHeard(log)
    ensures Stepped(log + [x]) == (Stepped(log) && (x.Wait? ==>
              if SilentStalls(log) >= 3 then x.due == x.at + 30_000 else IsStep(Waits(log), x.due - x.at)))
    ensures Waited(log + [x]) == (Waited(log) && (x.Dial? && !x.atOnce && log != [] ==>
              LastWait(log).Some? && x.at >= LastWait(log).value))
  {
    assert (log + [x])[..|log|] == log;
  }

  lemma LogWaits(c: Setup, w: World, e: Event, log': seq<Entry>)
    requires log' == Step(c, w, e).log
    ensures Waits(log') == if e.Connect? then 0
                           else Waits(w.log) + (if WaitOf(c, w, e).Some? && SilentStalls(w.log) < 3 then 1 else 0)
    ensures LastWait(log') == if WaitOf(c, w, e).Some? then WaitOf(c, w, e) else LastWait(w.log)
    ensures LastHeard(log') == if e.Data? || e.Connect? then Some(e.at) else LastHeard(w.log)
    ensures Stepped(log') == (Stepped(w.log) && (WaitOf(c, w, e).Some? ==>
              if SilentStalls(w.log) >= 3 then WaitOf(c, w, e).value == e.at + 30_000
              else IsStep(Waits(w.log), WaitOf(c, w, e).value - e.at)))
    ensures Waited(log') == (Waited(w.log) && (Dials(c, w, e) && !e.Close? && w.log != [] ==>
              LastWait(w.log).Some? && e.at >= LastWait(w.log).value))
    ensures log' == [] ==> w.log == []
    ensures e.Start? ==> log' != []
  {
    hide SilentStalls, Dials, WaitOf, Step, Waits, LastWait, LastHeard, Stepped, Waited, IsStep;
    StepAdds(c, w, e);
    var log1 := w.log + FirstAdded(c, w, e);
    if |FirstAdded(c, w, e)| == 1 {
      Snoc(w.log, FirstAdded(c, w, e)[0]);
      Upstream.Snoc(w.log, FirstAdded(c, w, e)[0]);
    } else {
      assert log1 == w.log;
    }
    if |ThenAdded(c, w, e)| == 1 { Snoc(log1, ThenAdded(c, w, e)[0]); } else { assert log1 + [] == log1; }
    NoDial(c, w, e);
    StartDials(c, w, e);
  }

  lemma StartDials(c: Setup, w: World, e: Event)
    ensures e.Start? ==> Dials(c, w, e)
    ensures e.Close? && Dials(c, w, e) ==> WaitOf(c, w, e).None?
    ensures WaitOf(c, w, e).Some? ==> e.Close?
  {}

  /** The table itself. */
  lemma DelaySteps(attempt: nat, random: real)
    requires 0.0 <= random < 1.0
    ensures IsStep(attempt, Delay(attempt, random))
  {}

  /** Both ends of every step are reached. */
  lemma DelayReaches()
    ensures Delay(0, 0.0) == 500 && Delay(1, 0.0) == 1000 && Delay(2, 0.0) == 2000 && Delay(3, 0.0) == 3000
    ensures Delay(0, 0.999) == 599 && Delay(1, 0.999) == 1199 && Delay(2, 0.999) == 2399 && Delay(3, 0.999) == 3599
    ensures forall k: nat :: k >= 4 ==> Delay(k, 0.0) == 5000 && Delay(k, 0.999) == 5999
  {}

  lemma BackoffKept(c: Setup, w: World, e: Event)
    requires Enabled(c, w, e) && MachineOk(w) && PaceOk(w) && BackoffOk(w)
    ensures BackoffOk(Step(c, w, e))
  {
    LogWaits(c, w, e, Step(c, w, e).log);
    if e.Close? { DelaySteps(if w.s.connected then 0 else w.s.reconnectAttempt, e.random); }
    hide SilentStalls, CarriedStalls, DialsAtOnce, HeardByte, LastDial, NotedUp, Spaced, Alternate, Delay;
    hide Waits, LastWait, LastHeard, Stepped, Waited, IsStep;
  }

  lemma ClockKept(c: Setup, w: World, e: Event)
    requires Enabled(c, w, e) && MachineOk(w) && ClockOk(c, w)
    ensures ClockOk(c, Step(c, w, e))
  {
    LogWaits(c, w, e, Step(c, w, e).log);
    LogMoves(c, w, e, Step(c, w, e).log);
    hide SilentStalls, CarriedStalls, DialsAtOnce, HeardByte, LastDial, NotedUp, Spaced, Alternate, Delay;
    hide Waits, LastWait, LastHeard, Stepped, Waited, IsStep;
  }

  lemma {:induction false} EveryRunPaced(c: Setup, es: seq<Event>)
    requires GoodSetup(c) && IsRun(c, es)
    ensures BackoffOk(Run(c, es)) && ClockOk(c, Run(c, es))
    decreases |es|
  {
    if es != [] {
      var w, e := Run(c, es[..|es| - 1]), es[|es| - 1];
      EveryRunPaced(c, es[..|es| - 1]);
      EveryRunSafe(c, es[..|es| - 1]);
      hide MachineOk, QuietOk, PaceOk, SpacingOk, NotesOk, Enabled, Step, BackoffOk, ClockOk;
      BackoffKept(c, w, e);
      ClockKept(c, w, e);
    }
  }

  // ---------- the results ----------

  /** Backoff: in every run each wait is the step of the table that the number of waits since the
      link was last connected calls for, or 30 s on a silent link, and every dial that is not
      made at once waits that long. */
  lemma BackoffSteps(c: Setup, es: seq<Event>)
    requires GoodSetup(c) && IsRun(c, es)
    ensures Run(c, es).s.reconnectAttempt == Waits(Run(c, es).log)
    ensures Stepped(Run(c, es).log) && Waited(Run(c, es).log)
  {
    EveryRunPaced(c, es);
  }

  /** A connected link that closes without a stall is redialled after 500 to 600 ms. */
  lemma PlainDisconnect(c: Setup, es: seq<Event>, e: Event)
    requires GoodSetup(c) && IsRun(c, es) && Enabled(c, Run(c, es), e) && e.Close?
    requires Run(c, es).s.connected && !Run(c, es).s.stallTriggered && Run(c, es).s.silentCycles < 3
    ensures var s := Step(c, Run(c, es), e).s;
            s.reconnectTimer.Some? && e.at + 500 <= s.reconnectTimer.value < e.at + 600
  {
    EveryRunSafe(c, es);
    DelaySteps(0, e.random);
    hide Delay, Run, IsRun;
  }

  /** Stalls are earned: an idle check of an open connection tears it down if and only if its
      last byte, or its beginning, lies the idle timeout back. */
  lemma StallIff(c: Setup, es: seq<Event>, e: Event)
    requires GoodSetup(c) && IsRun(c, es) && Enabled(c, Run(c, es), e) && e.IdleCheck?
    ensures var w := Run(c, es);
            && Step(c, w, e).doomed == (w.s.connected && e.at - w.s.lastRxAt >= c.cfg.idleTimeoutMs)
            && (w.s.connected ==> LastHeard(w.log) == Some(w.s.lastRxAt))
  {
    EveryRunSafe(c, es);
    EveryRunPaced(c, es);
    hide Run, IsRun, PaceOk, SpacingOk, NotesOk, LastHeard, LastDial;
  }

  /** A dial under way is given up the connect timeout after it was made, not before. */
  lemma DialTimesOut(c: Setup, es: seq<Event>, e: Event)
    requires GoodSetup(c) && IsRun(c, es) && Enabled(c, Run(c, es), e) && e.ConnectTimeout?
    ensures LastDial(Run(c, es).log).Some? && e.at >= LastDial(Run(c, es).log).value + c.cfg.connectTimeoutMs
    ensures Step(c, Run(c, es), e).doomed
  {
    EveryRunSafe(c, es);
    EveryRunPaced(c, es);
    hide Run, IsRun, PaceOk, SpacingOk, NotesOk, LastHeard, LastDial;
  }
}
