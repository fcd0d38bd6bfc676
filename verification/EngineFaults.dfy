/** Runs in which a failed send keeps the engine from ever handing control back. */
module EngineFaults {
  import opened Messages
  import opened Options
  import opened Engine
  import EngineOrder
  import opened EngineOff
  import opened EngineReports
  import opened EngineWritten
  import Q = CommandQueue
  import C = ControlState

  /** At rest with the queue drained and nothing in flight. */
  ghost predicate AtRest(e: State, acts: nat, last: LastMode) {
    && e.ctl.busConnected && e.last == last && |e.acts| == acts && Quiet(e)
    && e.q.drain.Idle? && e.q.queue == []
  }

  /** One step of a run, and the state it leads to. */
  lemma Go(ctl: C.State, states: seq<State>, events: seq<Event>, ev: Event)
    returns (ss: seq<State>, es: seq<Event>, e: State)
    requires IsRun(ctl, states, events) && Enabled(states[|events|], ev)
    ensures IsRun(ctl, ss, es) && |es| == |events| + 1 && e == ss[|es|] == Step(states[|events|], ev)
  {
    hide Enabled, Step;
    e := Step(states[|events|], ev);
    ss, es := states + [e], events + [ev];
    RunSnoc(ctl, states, events, ev, e);
  }

  // ---------- events that begin an activation, or none ----------

  /** From rest, the first frame of a new activation goes straight to the bridge. */
  function Begun(e: State, plan: Plan): State {
    var job := Q.Job(e.q.submitted, PlanFrames(plan)[0], Q.Activation(|e.acts|, 0), 0);
    e.(acts := e.acts + [Act(plan, [job.id], true, false)],
       q := e.q.(drain := Q.Writing(job), submitted := job.id + 1, handed := e.q.handed + [Q.Handed(job, 0)]))
  }

  lemma BeginFromRest(e: State, plan: Plan)
    requires e.q.drain.Idle? && e.q.queue == []
    ensures Begin(e, plan, 0) == Begun(e, plan)
  {
    IdleSendHands(e.q, PlanFrames(plan)[0], Q.Activation(|e.acts|, 0), 0);
    hide Q.OnSend;
  }

  lemma TimerReleases(e: State)
    requires e.ctl.busConnected && e.ctl.mode == C.Off && e.last != Released
    requires e.q.drain.Idle? && e.q.queue == []
    ensures Enabled(e, Timer(0)) && Step(e, Timer(0)) == Begun(e, Release)
  {
    BeginFromRest(e, Release);
    hide Begin, Begun;
  }

  lemma ManualDrives(e: State, t: real)
    requires e.ctl.busConnected && e.q.drain.Idle? && e.q.queue == []
    ensures var ev := Control(0, C.SetManual(t, None));
            var e' := e.(ctl := e.ctl.(mode := C.Manual, manualRpm := t, overrideUntil := None));
            Enabled(e, ev) && Step(e, ev) == Begun(e', Drive(C.Manual, t))
  {
    BeginFromRest(e.(ctl := e.ctl.(mode := C.Manual, manualRpm := t, overrideUntil := None)), Drive(C.Manual, t));
    hide Begin, Begun;
  }

  /** Setting the mode to off while "released" is remembered sends nothing, then or later. */
  lemma OffIsSilent(e: State)
    requires e.ctl.busConnected && e.last == Released
    ensures var ev := Control(0, C.SetOff);
            var e' := e.(ctl := e.ctl.(mode := C.Off, overrideUntil := None));
            Enabled(e, ev) && Step(e, ev) == e' && forall now :: OnApply(e', now) == e'
  {
    hide Begin;
  }

  // ---------- a write ends ----------

  /** The newest activation awaits the write in flight; nothing else is in flight or waiting. */
  ghost predicate OneWriting(e: State) {
    && e.q.drain.Writing? && e.q.queue == [] && |e.acts| > 0
    && (forall a :: 0 <= a < |e.acts| - 1 ==> !e.acts[a].open)
    && var act := e.acts[|e.acts| - 1];
       act.open && |act.jobs| > 0 && act.jobs[|act.jobs| - 1] == e.q.drain.job.id
  }

  function Result(e: State, ok: bool): Q.Settled
    requires e.q.drain.Writing?
  {
    Q.Settled(e.q.drain.job.id, if ok then Q.Resolved else Q.WriteFailed)
  }

  /** The queue when the write in flight has ended and the loop sleeps. */
  function Returned(e: State, ok: bool): State
    requires e.q.drain.Writing?
  {
    e.(q := e.q.(drain := Q.Gap, settled := e.q.settled + [Result(e, ok)]))
  }

  lemma WriteReturns(e: State, ok: bool)
    requires OneWriting(e)
    ensures Enabled(e, WriteDone(0, ok)) && Step(e, WriteDone(0, ok)) == Returned(e, ok)
    ensures Awaited(Returned(e, ok).q, e.acts[|e.acts| - 1]) == Some(Result(e, ok).outcome)
  {
    Q.OutcomeSnoc(e.q.settled, Result(e, ok), e.q.drain.job.id);
    hide Q.OutcomeOf;
  }

  /** The newest activation after its last write. */
  function Closed(e: State, ok: bool): State
    requires |e.acts| > 0
  {
    var a := |e.acts| - 1;
    var release := e.acts[a].plan.Release?;
    e.(last := if release then Released else e.last,
       acts := e.acts[a := e.acts[a].(open := false, ok := if release then ok else e.acts[a].ok)])
  }

  /** A release ends with any write, a drive with a failed one. */
  lemma ActEnds(e: State, ok: bool)
    requires OneWriting(e) && (e.acts[|e.acts| - 1].plan.Release? || !ok)
    ensures var ev := Resume(0, |e.acts| - 1);
            Enabled(Returned(e, ok), ev) && Step(Returned(e, ok), ev) == Closed(Returned(e, ok), ok)
  {
    WriteReturns(e, ok);
    hide Awaited, Q.OnSend;
  }

  lemma SleepEnds(e: State)
    requires e.q.drain.Gap? && e.q.queue == [] && Quiet(e)
    ensures Enabled(e, GapOver(0)) && Step(e, GapOver(0)) == e.(q := e.q.(drain := Q.Idle))
  {}

  /** What is left when the write in flight was the newest activation's last. */
  function Ended(e: State, ok: bool): State
    requires e.q.drain.Writing? && |e.acts| > 0
  {
    var e' := Closed(Returned(e, ok), ok);
    e'.(q := e'.q.(drain := Q.Idle))
  }

  lemma ClosedIsQuiet(e: State, ok: bool)
    requires OneWriting(e)
    ensures Quiet(Closed(Returned(e, ok), ok))
  {}

  lemma WriteEnds(ctl: C.State, states: seq<State>, events: seq<Event>, ok: bool)
    returns (ss: seq<State>, es: seq<Event>, e: State)
    requires IsRun(ctl, states, events) && OneWriting(states[|events|])
    requires states[|events|].acts[|states[|events|].acts| - 1].plan.Release? || !ok
    ensures IsRun(ctl, ss, es) && e == ss[|es|] == Ended(states[|events|], ok) && Quiet(e)
  {
    hide Step, Enabled, Quiet;
    var e0 := states[|events|];
    WriteReturns(e0, ok);
    ss, es, e := Go(ctl, states, events, WriteDone(0, ok));
    ActEnds(e0, ok);
    ss, es, e := Go(ctl, ss, es, Resume(0, |e0.acts| - 1));
    ClosedIsQuiet(e0, ok);
    SleepEnds(e);
    QuietIgnoresQueue(e, Q.Idle);
    ss, es, e := Go(ctl, ss, es, GapOver(0));
  }

  lemma QuietIgnoresQueue(e: State, drain: Q.Drain)
    requires Quiet(e)
    ensures Quiet(e.(q := e.q.(drain := drain)))
  {}

  // ---------- the enable goes through, the run frame is next ----------

  function RunJob(e: State): Q.Job
    requires |e.acts| > 0
  {
    Q.Job(e.q.submitted, Run(true), Q.Activation(|e.acts| - 1, 1), 0)
  }

  /** A drive whose enable was acknowledged has queued its run frame; the loop still sleeps. */
  function RunQueued(e: State): State
    requires |e.acts| > 0
  {
    var a := |e.acts| - 1;
    e.(acts := e.acts[a := e.acts[a].(jobs := e.acts[a].jobs + [e.q.submitted])],
       q := e.q.(queue := [RunJob(e)], submitted := e.q.submitted + 1))
  }

  lemma RunIsQueued(e: State, t: real)
    requires OneWriting(e) && t > 0.0
    requires e.acts[|e.acts| - 1].plan == Drive(C.Manual, t) && |e.acts[|e.acts| - 1].jobs| == 1
    ensures var ev := Resume(0, |e.acts| - 1);
            Enabled(Returned(e, true), ev) && Step(Returned(e, true), ev) == RunQueued(Returned(e, true))
  {
    WriteReturns(e, true);
    GapSendWaits(Returned(e, true).q, Run(true), Q.Activation(|e.acts| - 1, 1));
    hide Awaited, Q.OnSend;
  }

  lemma GapSendWaits(q: Q.State, msg: Msg, w: Q.Waiter)
    requires q.drain.Gap? && q.queue == []
    ensures Q.OnSend(q, msg, w, 0) == q.(queue := [Q.Job(q.submitted, msg, w, 0)], submitted := q.submitted + 1)
  {
    assert [] + [Q.Job(q.submitted, msg, w, 0)] == [Q.Job(q.submitted, msg, w, 0)];
  }

  /** The run frame is handed over when the sleep ends. */
  function RunHanded(e: State): State
    requires |e.acts| > 0
  {
    var e' := RunQueued(e);
    e'.(q := e'.q.(queue := [], drain := Q.Writing(RunJob(e)), handed := e.q.handed + [Q.Handed(RunJob(e), 0)]))
  }

  lemma RunGoesOut(e: State, ok: bool)
    requires OneWriting(e) && Q.OutcomeOf(e.q.settled, e.q.submitted) == None && e.q.drain.job.id != e.q.submitted
    ensures var e1 := Returned(e, ok);
            && Enabled(RunQueued(e1), GapOver(0)) && Step(RunQueued(e1), GapOver(0)) == RunHanded(e1)
            && OneWriting(RunHanded(e1))
  {
    var e1 := Returned(e, ok);
    Q.OutcomeSnoc(e.q.settled, Result(e, ok), e.q.submitted);
    assert [RunJob(e1)][1..] == [];
    hide Q.OutcomeOf;
  }

  /** The enable is acknowledged, and the run frame is in flight. */
  lemma EnableGoesThrough(ctl: C.State, states: seq<State>, events: seq<Event>, t: real)
    returns (ss: seq<State>, es: seq<Event>, e: State)
    requires IsRun(ctl, states, events) && OneWriting(states[|events|]) && t > 0.0
    requires var e0 := states[|events|];
             && e0.acts[|e0.acts| - 1].plan == Drive(C.Manual, t) && |e0.acts[|e0.acts| - 1].jobs| == 1
             && e0.q.drain.job.id < e0.q.submitted
    ensures IsRun(ctl, ss, es) && e == ss[|es|] == RunHanded(Returned(states[|events|], true)) && OneWriting(e)
  {
    hide Step, Enabled, RunQueued, RunHanded;
    var e0 := states[|events|];
    Unsettled(ctl, states, events, e0.q.submitted);
    WriteReturns(e0, true);
    ss, es, e := Go(ctl, states, events, WriteDone(0, true));
    RunIsQueued(e0, t);
    ss, es, e := Go(ctl, ss, es, Resume(0, |e0.acts| - 1));
    RunGoesOut(e0, true);
    ss, es, e := Go(ctl, ss, es, GapOver(0));
  }

  /** A send not made yet has no outcome. */
  lemma Unsettled(ctl: C.State, ss: seq<State>, es: seq<Event>, id: nat)
    requires IsRun(ctl, ss, es) && id >= ss[|es|].q.submitted
    ensures Q.OutcomeOf(ss[|es|].q.settled, id) == None
  {
    EngineOrder.EveryRunInv(ctl, ss, es, |es|);
    assert Q.Partitioned(ss[|es|].q);
    hide EngineOrder.Inv, Q.Partitioned, IsRun;
    if Q.OutcomeOf(ss[|es|].q.settled, id).Some? { Q.OutcomeKnown(ss[|es|].q, id); }
  }

  // ---------- the runs ----------

  const OFF := C.State(C.Off, 0.0, 0.0, false, None, true)

  /** Boot in mode off: a first release goes out, and its write ends well or not. */
  lemma BootReleases(ok: bool) returns (ss: seq<State>, es: seq<Event>, e: State)
    ensures IsRun(OFF, ss, es) && e == ss[|es|] == Ended(Begun(Start(OFF), Release), ok) && AtRest(e, 1, Released)
  {
    hide Step, Enabled;
    e := Start(OFF);
    ss, es := [e], [];
    TimerReleases(e);
    ss, es, e := Go(OFF, ss, es, Timer(0));
    ss, es, e := WriteEnds(OFF, ss, es, ok);
  }

  /** Then a manual speed is set, and the enable frame of its drive is in flight. */
  lemma ThenDrives(t: real) returns (ss: seq<State>, es: seq<Event>, e: State)
    ensures IsRun(OFF, ss, es) && e == ss[|es|] && OneWriting(e)
    ensures e.ctl.busConnected && e.last == Released && e.q.submitted == 2
    ensures |e.acts| == 2 && e.acts[1] == Act(Drive(C.Manual, t), [1], true, false)
    ensures e.q.drain.job == Q.Job(1, Remote(true), Q.Activation(1, 0), 0)
    ensures e.q.handed == [Q.Handed(Q.Job(0, Remote(false), Q.Activation(0, 0), 0), 0), Q.Handed(e.q.drain.job, 0)]
    ensures e.q.settled == [Q.Settled(0, Q.Resolved)]
  {
    hide Step, Enabled;
    ss, es, e := BootReleases(true);
    ManualDrives(e, t);
    ss, es, e := Go(OFF, ss, es, Control(0, C.SetManual(t, None)));
  }

  /** The pump is driven, the enable frame goes through, the run frame fails, and the mode is set
      to off. The pump was last told that remote control is on, yet apply(), now and at every
      later tick, sees "released" and sends nothing. */
  lemma AbortedDriveNeverReleased(t: real) returns (ctl: C.State, ss: seq<State>, es: seq<Event>)
    requires t > 0.0
    ensures IsRun(ctl, ss, es)
    ensures var e := ss[|es|];
            && e.ctl.mode == C.Off && AtRest(e, 2, Released) && LastRemoteWritten(e.q) == Some(true)
            && (forall ids :: 1 in ids ==> LastReached(e.q.handed, ids) == Some(true))
            && forall now :: OnApply(e, now) == e
  {
    hide Step, Enabled, LastReached, Q.OutcomeOf, OnApply;
    ctl := OFF;
    var e: State;
    ss, es, e := ThenDrives(t);
    ss, es, e := EnableGoesThrough(ctl, ss, es, t);
    ss, es, e := WriteEnds(ctl, ss, es, false);
    var q := e.q;
    OffIsSilent(e);
    ss, es, e := Go(ctl, ss, es, Control(0, C.SetOff));
    assert q.settled == [Q.Settled(0, Q.Resolved), Q.Settled(1, Q.Resolved), Q.Settled(2, Q.WriteFailed)];
    ThreeOutcomes(q);
    forall ids | 1 in ids ensures LastReached(q.handed, ids) == Some(true) { EnableIsLast(q.handed, ids); }
  }

  lemma ThreeOutcomes(q: Q.State)
    requires q.settled == [Q.Settled(0, Q.Resolved), Q.Settled(1, Q.Resolved), Q.Settled(2, Q.WriteFailed)]
    requires q.submitted == 3
    ensures 1 in Acknowledged(q)
  {
    assert q.settled[..2][1] == Q.Settled(1, Q.Resolved);
    assert Q.OutcomeOf(q.settled[..2], 1) == Some(Q.Resolved);
  }

  /** A release, an enable that reached the bus, and no other remote control frame. */
  lemma EnableIsLast(handed: seq<Q.Handed>, ids: set<nat>)
    requires 2 <= |handed| <= 3 && handed[1].job.id == 1 && handed[1].job.msg == Remote(true) && 1 in ids
    requires |handed| == 3 ==> !handed[2].job.msg.Remote?
    ensures LastReached(handed, ids) == Some(true)
  {
    assert LastReached(handed[..2], ids) == Some(true);
    assert |handed| == 2 ==> handed[..2] == handed;
  }

  /** The pump is driven, the write of the enable frame is rejected, and the mode is set to off.
      Going by acknowledgements the last word is the release before; but if the rejected enable
      reaches the bus after all, as after a timeout it can, the pump stays under remote control:
      apply() sees "released" and sends nothing, now and at every later tick. */
  lemma RejectedEnableStaysOn(t: real) returns (ctl: C.State, ss: seq<State>, es: seq<Event>)
    ensures IsRun(ctl, ss, es)
    ensures var e := ss[|es|];
            && e.ctl.mode == C.Off && AtRest(e, 2, Released)
            && LastRemoteWritten(e.q) == Some(false) && LastRemote(e.q.handed) == Some(true)
            && (forall ids :: 1 in ids ==> LastReached(e.q.handed, ids) == Some(true))
            && forall now :: OnApply(e, now) == e
  {
    hide Step, Enabled, LastReached, Q.OutcomeOf, OnApply, LastRemote;
    ctl := OFF;
    var e: State;
    ss, es, e := ThenDrives(t);
    ss, es, e := WriteEnds(ctl, ss, es, false);
    var q := e.q;
    OffIsSilent(e);
    ss, es, e := Go(ctl, ss, es, Control(0, C.SetOff));
    assert q.settled == [Q.Settled(0, Q.Resolved), Q.Settled(1, Q.WriteFailed)];
    TwoOutcomes(q);
    LastHanded(q.handed);
    forall ids | 1 in ids ensures LastReached(q.handed, ids) == Some(true) { EnableIsLast(q.handed, ids); }
    ReleaseIsLast(q.handed, Acknowledged(q));
  }

  lemma TwoOutcomes(q: Q.State)
    requires q.settled == [Q.Settled(0, Q.Resolved), Q.Settled(1, Q.WriteFailed)] && q.submitted == 2
    ensures 0 in Acknowledged(q) && 1 !in Acknowledged(q)
  {
    assert q.settled[..1] == [Q.Settled(0, Q.Resolved)];
    assert Q.OutcomeOf(q.settled[..1], 0) == Some(Q.Resolved);
  }

  lemma LastHanded(handed: seq<Q.Handed>)
    requires |handed| == 2 && handed[1].job.msg == Remote(true)
    ensures LastRemote(handed) == Some(true)
  {}

  lemma ReleaseIsLast(handed: seq<Q.Handed>, ids: set<nat>)
    requires |handed| == 2 && handed[0].job.id == 0 && handed[0].job.msg == Remote(false) && handed[1].job.id == 1
    requires 0 in ids && 1 !in ids
    ensures LastReached(handed, ids) == Some(false)
  {
    assert LastReached(handed[..1], ids) == Some(false);
  }

  /** The other way to fail: the write of the first release of all is rejected. "Released" is
      remembered all the same, no release was acknowledged, none reaches the bus unless that one
      does, and apply() sends no other, now or later. */
  lemma FailedReleaseNeverWritten() returns (ctl: C.State, ss: seq<State>, es: seq<Event>)
    ensures IsRun(ctl, ss, es)
    ensures var e := ss[|es|];
            && e.ctl.mode == C.Off && AtRest(e, 1, Released) && LastRemoteWritten(e.q) == None
            && LastRemote(e.q.handed) == Some(false)
            && (forall ids :: LastReached(e.q.handed, ids) == if 0 in ids then Some(false) else None)
            && forall now :: OnApply(e, now) == e
  {
    hide Step, Enabled, LastReached, Q.OutcomeOf, LastRemote;
    ctl := OFF;
    var e: State;
    ss, es, e := BootReleases(false);
    assert e.q.handed == [Q.Handed(Q.Job(0, Remote(false), Q.Activation(0, 0), 0), 0)];
    assert e.q.settled == [Q.Settled(0, Q.WriteFailed)];
    OneFailure(e.q);
    OnlyRelease(e.q.handed);
  }

  lemma OneFailure(q: Q.State)
    requires q.settled == [Q.Settled(0, Q.WriteFailed)]
    ensures 0 !in Acknowledged(q)
  {}

  lemma OnlyRelease(handed: seq<Q.Handed>)
    requires |handed| == 1 && handed[0].job.id == 0 && handed[0].job.msg == Remote(false)
    ensures LastRemote(handed) == Some(false)
    ensures forall ids :: LastReached(handed, ids) == if 0 in ids then Some(false) else None
  {
    assert handed[..0] == [];
  }

  /** A release is sent once: whether it was written, failed or was discarded, its activation
      ends as "released"; and if nothing else is in flight then, no frame of the engine reaches
      the bridge for as long as control stays handed back. */
  lemma FailedReleaseNotRetried(ctl: C.State, states: seq<State>, events: seq<Event>, r: nat, t: nat)
    requires IsRun(ctl, states, events) && r < t < |states| && events[r].Resume?
    requires events[r].act < |states[r].acts| && states[r].acts[events[r].act].plan.Release?
    requires Quiet(states[r + 1]) && forall i :: r < i <= t ==> states[i].ctl.Releasing()
    ensures states[t].last == Released && states[t].acts == states[r + 1].acts
    ensures states[r + 1].q.handed <= states[t].q.handed
    ensures forall j :: |states[r + 1].q.handed| <= j < |states[t].q.handed| ==> states[t].q.handed[j].job.msg == Status
    ensures forall ids :: LastReached(states[t].q.handed, ids) == LastReached(states[r + 1].q.handed, ids)
    ensures LastRemoteWritten(states[t].q) == LastRemoteWritten(states[r + 1].q)
  {
    assert Enabled(states[r], events[r]) && states[r + 1] == Step(states[r], events[r]);
    hide IsRun, Quiet, LastReached, Acknowledged;
    ReleasedStaysSilent(ctl, states, events, r + 1, t);
  }
}
