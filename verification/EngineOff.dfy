/** Handing control back: with the mode off and every send going through, the last remote
    control frame on its way to the bus is a release, although apply() skips the release
    whenever the mode last applied is already "released". */
module EngineOff {
  import opened Messages
  import opened Options
  import opened Engine
  import opened EngineOrder
  import Q = CommandQueue
  import C = ControlState

  /** The last remote control frame handed to the bridge: enable or release. */
  function LastRemote(handed: seq<Q.Handed>): Option<bool> {
    if handed == [] then None
    else
      var m := handed[|handed| - 1].job.msg;
      if m.Remote? then Some(m.on) else LastRemote(handed[..|handed| - 1])
  }

  ghost predicate NoFaults(q: Q.State) {
    forall i :: 0 <= i < |q.settled| ==> q.settled[i].outcome == Q.Resolved
  }

  /** No activation is in flight. */
  ghost predicate Quiet(e: State) { forall a :: 0 <= a < |e.acts| ==> !e.acts[a].open }

  /** An activation that ended had its first frame handed to the bridge. */
  ghost predicate ClosedHanded(e: State) {
    forall a :: 0 <= a < |e.acts| && !e.acts[a].open && |e.acts[a].jobs| > 0 ==> Q.WasHanded(e.q, e.acts[a].jobs[0])
  }

  /** "released" is only remembered while the newest activation is a release or still runs. */
  ghost predicate ReleasedOk(e: State) {
    e.last == Released ==> |e.acts| > 0 && var newest := e.acts[|e.acts| - 1]; newest.plan.Release? || newest.open
  }

  ghost predicate OffInv(e: State) { Inv(e) && ClosedHanded(e) && ReleasedOk(e) }

  // ---------- the invariant, event by event ----------

  lemma ClosedHandedGrows(e: State, e': State)
    requires ClosedHanded(e) && e.q.handed <= e'.q.handed && |e.acts| <= |e'.acts|
    requires forall a :: 0 <= a < |e'.acts| && !e'.acts[a].open ==>
               a < |e.acts| && !e.acts[a].open && e'.acts[a].jobs == e.acts[a].jobs
    ensures ClosedHanded(e')
  {
    forall a | 0 <= a < |e'.acts| && !e'.acts[a].open && |e'.acts[a].jobs| > 0
      ensures Q.WasHanded(e'.q, e'.acts[a].jobs[0])
    {
      Q.HandedStays(e.q, e'.q, e.acts[a].jobs[0]);
    }
  }

  lemma BeginOff(e: State, plan: Plan, now: int)
    requires OffInv(e)
    ensures OffInv(Begin(e, plan, now))
  {
    BeginKeeps(e, plan, now);
    Q.SendSubmits(e.q, PlanFrames(plan)[0], Q.Activation(|e.acts|, 0), now);
    hide Inv, Q.OnSend;
    ClosedHandedGrows(e, Begin(e, plan, now));
  }

  lemma DecideOff(e: State, now: int)
    requires OffInv(e)
    ensures OffInv(Decide(e, now))
  {
    hide OffInv, Begin;
    BeginOff(e, Release, now);
    BeginOff(e, Drive(e.ctl.mode, e.ctl.TargetRpm()), now);
  }

  lemma ApplyOff(e: State, now: int)
    requires OffInv(e)
    ensures OffInv(OnApply(e, now))
  {
    var e1 := e.(ctl := C.OnTickOverride(e.ctl, now).0);
    CtlIrrelevant(e, e1);
    hide OffInv, Decide;
    DecideOff(e1, now);
    DecideOff(Decide(e1, now), now);
  }

  lemma CtlIrrelevant(e: State, e1: State)
    requires OffInv(e) && e1 == e.(ctl := e1.ctl)
    ensures OffInv(e1)
  {
    assert Inv(e1);
  }

  lemma ControlOff(e: State, c: C.Change, now: int)
    requires OffInv(e)
    ensures OffInv(OnControl(e, c, now))
  {
    var e1 := e.(ctl := C.OnChange(e.ctl, c, now).0);
    CtlIrrelevant(e, e1);
    hide OffInv, OnApply;
    ApplyOff(e1, now);
  }

  /** When a release ends, a newer activation cannot have ended before it: its first send came
      later than the one that was just handed. */
  lemma NewestStillOpen(e: State, a: nat)
    requires OffInv(e) && a < |e.acts| && IsReady(e.q, e.acts[a]) && e.acts[a].plan.Release?
    ensures forall b :: a < b < |e.acts| ==> e.acts[b].open
  {
    assert |e.acts[a].jobs| == 1;
    forall b | a < b < |e.acts| ensures e.acts[b].open {
      if !e.acts[b].open {
        assert Sent(e.acts, a, 0) && Sent(e.acts, b, 0);
        HandedBelowHighWater(e.q, e.acts[b].jobs[0]);
        assert false;
      }
    }
  }

  lemma FirstHanded(e: State, a: nat)
    requires Inv(e) && a < |e.acts| && IsReady(e.q, e.acts[a])
    ensures Q.WasHanded(e.q, e.acts[a].jobs[0])
  {
    NoneAhead(e, a);
    assert Sent(e.acts, a, 0);
  }

  /** Closing a ready activation, with the mode last applied set accordingly. */
  lemma CloseOff(e: State, a: nat, e': State)
    requires Inv(e) && ClosedHanded(e) && a < |e.acts| && Q.WasHanded(e.q, e.acts[a].jobs[0])
    requires e'.q == e.q && e'.acts == e.acts[a := e.acts[a].(open := false, ok := true)]
    ensures ClosedHanded(e')
  {}

  lemma ResumeSends(e: State, a: nat, now: int)
    requires ClosedHanded(e) && ReleasedOk(e) && a < |e.acts| && IsReady(e.q, e.acts[a])
    requires e.acts[a].plan.Drive? && |e.acts[a].jobs| < |PlanFrames(e.acts[a].plan)|
    ensures ClosedHanded(OnResume(e, a, now)) && ReleasedOk(OnResume(e, a, now))
  {
    var act := e.acts[a];
    Q.SendSubmits(e.q, PlanFrames(act.plan)[|act.jobs|], Q.Activation(a, |act.jobs|), now);
    hide ClosedHanded, Q.OnSend;
    ClosedHandedGrows(e, OnResume(e, a, now));
  }

  lemma ResumeEnds(e: State, a: nat, now: int)
    requires OffInv(e) && a < |e.acts| && IsReady(e.q, e.acts[a])
    requires e.acts[a].plan.Release? || |e.acts[a].jobs| >= |PlanFrames(e.acts[a].plan)|
    ensures ClosedHanded(OnResume(e, a, now)) && ReleasedOk(OnResume(e, a, now))
  {
    FirstHanded(e, a);
    if e.acts[a].plan.Release? { NewestStillOpen(e, a); }
    CloseOff(e, a, OnResume(e, a, now));
    hide Inv, ClosedHanded;
  }

  lemma ResumeOff(e: State, a: nat, now: int)
    requires OffInv(e) && a < |e.acts| && IsReady(e.q, e.acts[a])
    ensures OffInv(OnResume(e, a, now))
  {
    hide Inv, ClosedHanded, ReleasedOk, OnResume;
    ResumeKeeps(e, a, now);
    if e.acts[a].plan.Drive? && |e.acts[a].jobs| < |PlanFrames(e.acts[a].plan)| {
      ResumeSends(e, a, now);
    } else {
      ResumeEnds(e, a, now);
    }
  }

  lemma SameReleased(e: State, ev: Event)
    requires ReleasedOk(e) && Enabled(e, ev)
    ensures ev.Poll? || ev.WriteDone? || ev.GapOver? ==> ReleasedOk(Step(e, ev))
  {}

  lemma NoFaultsBefore(q: Q.State, q': Q.State, id: nat)
    requires q.settled <= q'.settled && NoFaults(q')
    ensures NoFaults(q)
    ensures Q.OutcomeOf(q.settled, id).Some? ==> Q.OutcomeOf(q.settled, id) == Some(Q.Resolved)
  {
    forall i | 0 <= i < |q.settled| ensures q.settled[i].outcome == Q.Resolved {
      assert q.settled[i] == q'.settled[i];
    }
    OutcomeAmong(q.settled, id);
  }

  lemma StepOff(e: State, ev: Event)
    requires OffInv(e) && Enabled(e, ev) && NoFaults(Step(e, ev).q)
    ensures OffInv(Step(e, ev))
  {
    StepKeeps(e, ev);
    hide Inv, NoFaults, ClosedHanded, ReleasedOk;
    assert ReleasedOk(e) && (ev.Poll? || ev.WriteDone? || ev.GapOver? ==> ReleasedOk(Step(e, ev))) by {
      SameReleased(e, ev);
    }
    match ev {
      case Control(at, c) => ControlOff(e, c, at);
      case Timer(at) => ApplyOff(e, at);
      case Poll(at) =>
        Q.SendSubmits(e.q, Status, Q.Nobody, at);
        ClosedHandedGrows(e, Step(e, ev));
      case WriteDone(_, ok) => ClosedHandedGrows(e, Step(e, ev));
      case GapOver(at) =>
        Q.PumpGrows(e.q, at);
        ClosedHandedGrows(e, Step(e, ev));
      case Resume(at, a) =>
        StepGrows(e, ev);
        NoFaultsBefore(e.q, Step(e, ev).q, e.acts[a].jobs[|e.acts[a].jobs| - 1]);
        ResumeOff(e, a, at);
    }
  }

  /** A run only adds to what has settled. */
  lemma StepGrows(e: State, ev: Event)
    requires Enabled(e, ev)
    ensures e.q.settled <= Step(e, ev).q.settled
  {
    match ev {
      case Control(at, c) => ApplyGrows(e.(ctl := C.OnChange(e.ctl, c, at).0), at);
      case Timer(at) => ApplyGrows(e, at);
      case Poll(at) => Q.SendSubmits(e.q, Status, Q.Nobody, at);
      case WriteDone(_, ok) =>
      case GapOver(at) => Q.PumpGrows(e.q, at);
      case Resume(at, a) =>
        var act := e.acts[a];
        if act.plan.Drive? && |act.jobs| < |PlanFrames(act.plan)| {
          Q.SendSubmits(e.q, PlanFrames(act.plan)[|act.jobs|], Q.Activation(a, |act.jobs|), at);
        }
    }
  }

  lemma ApplyGrows(e: State, now: int)
    ensures e.q.settled <= OnApply(e, now).q.settled
  {
    var e1 := e.(ctl := C.OnTickOverride(e.ctl, now).0);
    DecideGrows(e1, now);
    DecideGrows(Decide(e1, now), now);
  }

  lemma DecideGrows(e: State, now: int)
    ensures e.q.settled <= Decide(e, now).q.settled
  {
    Q.SendSubmits(e.q, PlanFrames(Release)[0], Q.Activation(|e.acts|, 0), now);
    var plan := Drive(e.ctl.mode, e.ctl.TargetRpm());
    Q.SendSubmits(e.q, PlanFrames(plan)[0], Q.Activation(|e.acts|, 0), now);
  }

  lemma {:induction false} OutcomeAmong(ss: seq<Q.Settled>, id: nat)
    requires forall i :: 0 <= i < |ss| ==> ss[i].outcome == Q.Resolved
    ensures Q.OutcomeOf(ss, id).Some? ==> Q.OutcomeOf(ss, id) == Some(Q.Resolved)
    decreases |ss|
  {
    if ss != [] { OutcomeAmong(ss[..|ss| - 1], id); }
  }

  lemma {:induction false} FaultFreeRun(ctl: C.State, states: seq<State>, events: seq<Event>, i: nat, t: nat)
    requires IsRun(ctl, states, events) && i <= t < |states| && NoFaults(states[t].q)
    ensures NoFaults(states[i].q)
    decreases t - i
  {
    if i < t {
      FaultFreeRun(ctl, states, events, i + 1, t);
      assert Enabled(states[i], events[i]) && states[i + 1] == Step(states[i], events[i]);
      StepGrows(states[i], events[i]);
    }
  }

  lemma {:induction false} EveryFaultFreeRun(ctl: C.State, states: seq<State>, events: seq<Event>, i: nat, t: nat)
    requires IsRun(ctl, states, events) && i <= t < |states| && NoFaults(states[t].q)
    ensures OffInv(states[i])
    decreases i
  {
    if i == 0 {
      EveryRunInv(ctl, states, events, 0);
    } else {
      EveryFaultFreeRun(ctl, states, events, i - 1, t);
      FaultFreeRun(ctl, states, events, i, t);
      assert Enabled(states[i - 1], events[i - 1]) && states[i] == Step(states[i - 1], events[i - 1]);
      hide OffInv, Step, Enabled, NoFaults;
      StepOff(states[i - 1], events[i - 1]);
    }
  }

  // ---------- once off, the newest activation stays a release ----------

  ghost predicate NewestReleases(e: State) { |e.acts| > 0 && e.acts[|e.acts| - 1].plan.Release? }

  lemma DecideReleases(e: State, now: int)
    requires e.ctl.Releasing()
    requires NewestReleases(e) || (e.last == Released ==> NewestReleases(e))
    ensures NewestReleases(Decide(e, now))
  {}

  /** While the mode hands control back, no step starts driving again. */
  lemma StepStaysReleasing(e: State, ev: Event)
    requires Enabled(e, ev) && Step(e, ev).ctl.Releasing() && NewestReleases(e)
    ensures NewestReleases(Step(e, ev))
  {}

  lemma {:induction false} StaysReleasing(ctl: C.State, states: seq<State>, events: seq<Event>, s: nat, t: nat)
    requires IsRun(ctl, states, events) && s <= t < |states|
    requires NewestReleases(states[s]) && forall i :: s <= i <= t ==> states[i].ctl.Releasing()
    ensures NewestReleases(states[t])
    decreases t - s
  {
    if s < t {
      StaysReleasing(ctl, states, events, s, t - 1);
      assert Enabled(states[t - 1], events[t - 1]) && states[t] == Step(states[t - 1], events[t - 1]);
      hide Enabled, Step, NewestReleases;
      StepStaysReleasing(states[t - 1], events[t - 1]);
    }
  }

  // ---------- the last remote control frame ----------

  lemma {:induction false} LastRemoteAt(handed: seq<Q.Handed>, p: nat)
    requires p < |handed| && handed[p].job.msg.Remote?
    requires forall j :: p < j < |handed| ==> !handed[j].job.msg.Remote?
    ensures LastRemote(handed) == Some(handed[p].job.msg.on)
    decreases |handed|
  {
    if p < |handed| - 1 { LastRemoteAt(handed[..|handed| - 1], p); }
  }

  lemma OrderedIds(e: State)
    requires Inv(e)
    ensures Matrix(e.acts)
    ensures forall i, j :: 0 <= i < j < |e.q.handed| ==> e.q.handed[i].job.id < e.q.handed[j].job.id
  {}

  /** Of two jobs, the later one is no remote control frame if the earlier is the newest
      activation's first. */
  lemma NothingRemoteAfter(acts: seq<Act>, x: Q.Job, y: Q.Job)
    requires Matrix(acts) && LabelOk(acts, x) && LabelOk(acts, y) && x.id < y.id
    requires |acts| > 0 && x.waiter == Q.Activation(|acts| - 1, 0)
    ensures !y.msg.Remote?
  {
    if y.msg.Remote? {
      LaterJobLaterDecision(acts, x, y);
      assert false;
    }
  }

  lemma NewestLabel(e: State, p: nat)
    requires Inv(e) && |e.acts| > 0 && |e.acts[|e.acts| - 1].jobs| > 0
    requires p < |e.q.handed| && e.q.handed[p].job.id == e.acts[|e.acts| - 1].jobs[0]
    ensures var job := e.q.handed[p].job;
            job.waiter == Q.Activation(|e.acts| - 1, 0) && job.msg == Remote(e.acts[|e.acts| - 1].plan.Drive?)
  {
    assert Sent(e.acts, |e.acts| - 1, 0);
    assert Q.InLine(e.q, e.q.handed[p].job);
    assert LabelOk(e.acts, e.q.handed[p].job);
  }

  lemma HandedIndex(q: Q.State, id: nat) returns (p: nat)
    requires Q.WasHanded(q, id)
    ensures p < |q.handed| && q.handed[p].job.id == id
  {
    p :| 0 <= p < |q.handed| && q.handed[p].job.id == id;
  }

  /** Once the newest activation's first frame is handed over, it is the last of its kind. */
  lemma NewestSpeaksLast(e: State)
    requires Inv(e) && |e.acts| > 0
    requires var newest := e.acts[|e.acts| - 1]; |newest.jobs| > 0 && Q.WasHanded(e.q, newest.jobs[0])
    ensures LastRemote(e.q.handed) == Some(e.acts[|e.acts| - 1].plan.Drive?)
  {
    hide *;
    var hs := e.q.handed;
    var p := HandedIndex(e.q, e.acts[|e.acts| - 1].jobs[0]);
    InvInOrder(e);
    OrderedIds(e);
    NewestLabel(e, p);
    assert hs[p] in hs;
    forall j | p < j < |hs| ensures !hs[j].job.msg.Remote? {
      assert hs[j] in hs;
      NothingRemoteAfter(e.acts, hs[p].job, hs[j].job);
    }
    LastRemoteAt(hs, p);
  }

  lemma TimerStep(ctl: C.State, states: seq<State>, events: seq<Event>, s: nat)
    requires IsRun(ctl, states, events) && s < |events| && events[s].Timer?
    ensures states[s + 1] == OnApply(states[s], events[s].at)
  {
    assert Enabled(states[s], events[s]) && states[s + 1] == Step(states[s], events[s]);
  }

  lemma FirstApplyReleases(e: State, now: int)
    requires OffInv(e) && Quiet(e) && e.ctl.busConnected && e.ctl.Releasing()
    ensures NewestReleases(OnApply(e, now))
  {
    hide Inv, ClosedHanded, Q.OnSend;
    assert C.OnTickOverride(e.ctl, now) == (e.ctl, false);
    DecideReleases(e, now);
  }

  lemma NewestIsRelease(e: State)
    requires OffInv(e) && Quiet(e) && NewestReleases(e)
    ensures LastRemote(e.q.handed) == Some(false)
  {
    var newest := e.acts[|e.acts| - 1];
    assert |newest.jobs| > 0 && Q.WasHanded(e.q, newest.jobs[0]);
    hide Inv;
    NewestSpeaksLast(e);
  }

  // ---------- single steps of concrete runs ----------

  /** A send into an idle empty queue goes straight to the bridge. */
  lemma IdleSendHands(q: Q.State, msg: Msg, w: Q.Waiter, now: int)
    requires q.drain.Idle? && q.queue == []
    ensures var job := Q.Job(q.submitted, msg, w, now);
            Q.OnSend(q, msg, w, now)
              == q.(drain := Q.Writing(job), submitted := q.submitted + 1, handed := q.handed + [Q.Handed(job, now)])
  {
    var job := Q.Job(q.submitted, msg, w, now);
    assert [] + [job] == [job] && [job][1..] == [];
  }

  lemma RunSnoc(ctl: C.State, states: seq<State>, events: seq<Event>, ev: Event, next: State)
    requires IsRun(ctl, states, events) && Enabled(states[|events|], ev) && next == Step(states[|events|], ev)
    ensures IsRun(ctl, states + [next], events + [ev])
  {
    var ss, es := states + [next], events + [ev];
    forall i | 0 <= i < |es| ensures Enabled(ss[i], es[i]) && ss[i + 1] == Step(ss[i], es[i]) {
      if i < |events| { assert ss[i] == states[i] && ss[i + 1] == states[i + 1] && es[i] == events[i]; }
    }
  }
}
