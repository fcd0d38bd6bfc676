/** What the engine drives is the control intent: the fields of the control state decide every
    activation's plan, and every change of them that matters, and every tick, starts one. */
module EngineIntent {
  import opened Options
  import opened Engine
  import Q = CommandQueue
  import C = ControlState

  /** The plan the fields of the control state ask for. */
  function Intended(ctl: C.State): Plan {
    match ctl.mode
    case Off => Release
    case Manual => Drive(C.Manual, ctl.manualRpm)
    case Schedule => if ctl.scheduleActive then Drive(C.Schedule, ctl.scheduledRpm) else Release
  }

  /** From e to e' only activations with the plan the control state of e' asks for began. */
  ghost predicate Follows(e: State, e': State) {
    && |e.acts| <= |e'.acts| && e'.last == e.last
    && (forall a :: 0 <= a < |e.acts| ==> e'.acts[a] == e.acts[a])
    && (forall a :: |e.acts| <= a < |e'.acts| ==> e'.acts[a].plan == Intended(e'.ctl))
  }

  /** How many activations one apply() is to begin with this control state. */
  function Due(ctl: C.State, last: LastMode): nat {
    if Intended(ctl).Release? && last == Released then 0 else 1
  }

  lemma DecideFollows(e: State, now: int)
    ensures var e' := Decide(e, now);
            Follows(e, e') && e'.ctl == e.ctl && |e'.acts| == |e.acts| + Due(e.ctl, e.last)
  {
    hide Q.OnSend;
  }

  /** A timed override past its deadline. */
  predicate Expired(ctl: C.State, now: int) {
    ctl.mode == C.Manual && ctl.overrideUntil.Some? && now > ctl.overrideUntil.value
  }

  /** The control state after apply() has looked at the override. */
  function Ticked(ctl: C.State, now: int): C.State {
    if Expired(ctl, now) then ctl.(mode := C.Schedule, overrideUntil := None) else ctl
  }

  /** One apply(): nothing without the bus; else what the control state asks for, and twice if an
      override ran out, which starts apply() within apply(). */
  lemma ApplyFollows(e: State, now: int)
    ensures var e' := OnApply(e, now);
            if !e.ctl.busConnected then e' == e
            else
              && e'.ctl == Ticked(e.ctl, now) && Follows(e, e')
              && |e'.acts| == |e.acts| + (if Expired(e.ctl, now) then 2 else 1) * Due(e'.ctl, e.last)
  {
    hide Decide;
    var e1 := e.(ctl := C.OnTickOverride(e.ctl, now).0);
    DecideFollows(e1, now);
    DecideFollows(Decide(e1, now), now);
  }

  // ---------- the control state, event by event ----------

  /** A setter's own effect on the fields. */
  function Changed(ctl: C.State, c: C.Change, at: int): C.State {
    match c
    case SetManual(rpm, None) => ctl.(mode := C.Manual, manualRpm := rpm, overrideUntil := None)
    case SetManual(rpm, Some(minutes)) =>
      ctl.(mode := C.Manual, manualRpm := rpm,
           overrideUntil := if minutes == 0 then None else Some(at + minutes * 60_000))
    case ResumeSchedule => ctl.(mode := C.Schedule, overrideUntil := None)
    case SetOff => ctl.(mode := C.Off, overrideUntil := None)
    case RestoreIntent(mode, rpm) => ctl.(mode := mode, manualRpm := rpm, overrideUntil := None)
    case SetScheduledRpm(rpm) => ctl.(scheduledRpm := rpm)
    case SetScheduleActive(active) => ctl.(scheduleActive := active)
    case SetBusConnected(connected) => ctl.(busConnected := connected)
  }

  /** apply() ran at this event. */
  predicate Applies(ctl: C.State, ev: Event) {
    match ev
    case Timer(_) => true
    case Control(at, c) =>
      (match c
       case SetScheduledRpm(rpm) => rpm != ctl.scheduledRpm && ctl.mode == C.Schedule
       case SetScheduleActive(active) => active != ctl.scheduleActive && ctl.mode == C.Schedule
       case SetBusConnected(connected) => connected != ctl.busConnected
       case _ => true)
    case _ => false
  }

  /** The control state an event leaves behind. */
  function After(ctl: C.State, ev: Event): C.State {
    var asked := if ev.Control? then Changed(ctl, ev.change, ev.at) else ctl;
    if Applies(ctl, ev) && asked.busConnected then Ticked(asked, ev.at) else asked
  }

  /** Every event of the engine leaves exactly that control state behind, and begins activations
      exactly when apply() runs with the bus up, with the plan that control state asks for. */
  lemma StepFollows(e: State, ev: Event)
    requires Enabled(e, ev)
    ensures var e' := Step(e, ev);
            && e'.ctl == After(e.ctl, ev)
            && (!ev.Resume? ==> Follows(e, e'))
            && |e'.acts| == |e.acts| + (if Applies(e.ctl, ev) && e'.ctl.busConnected then
                 (if Expired(if ev.Control? then Changed(e.ctl, ev.change, ev.at) else e.ctl, ev.at) then 2 else 1)
                   * Due(e'.ctl, e.last) else 0)
  {
    hide OnApply, Q.OnSend, Q.OnGapOver, Due, Intended;
    match ev {
      case Control(at, c) => ApplyFollows(e.(ctl := C.OnChange(e.ctl, c, at).0), at);
      case Timer(at) => ApplyFollows(e, at);
      case _ =>
    }
  }

  // ---------- all runs ----------

  /** In every run, every activation's plan is what the fields of the control state ask for when
      it begins: Release in mode off or in schedule mode without an active schedule, the manual
      speed in manual mode, the scheduled speed in schedule mode; and none begins without the bus. */
  lemma PlansFollowIntent(ctl: C.State, states: seq<State>, events: seq<Event>, i: nat)
    requires IsRun(ctl, states, events) && i < |events|
    ensures states[i + 1].ctl == After(states[i].ctl, events[i])
    ensures var e, e' := states[i], states[i + 1];
            forall a :: |e.acts| <= a < |e'.acts| ==> e'.acts[a].plan == Intended(e'.ctl) && e'.ctl.busConnected
  {
    assert Enabled(states[i], events[i]) && states[i + 1] == Step(states[i], events[i]);
    hide IsRun, Enabled, Step, Intended, After;
    StepFollows(states[i], events[i]);
    ResumeBeginsNone(states[i], events[i]);
  }

  lemma ResumeBeginsNone(e: State, ev: Event)
    requires Enabled(e, ev)
    ensures ev.Resume? ==> |Step(e, ev).acts| == |e.acts|
    ensures ev.Resume? ==> forall a :: 0 <= a < |e.acts| ==> Step(e, ev).acts[a].plan == e.acts[a].plan
  {}

  /** Every keep-alive tick with the bus up re-asserts the intent, unless it is a release already
      remembered; an override that ran out asserts it twice. */
  lemma TickReasserts(ctl: C.State, states: seq<State>, events: seq<Event>, i: nat)
    requires IsRun(ctl, states, events) && i < |events| && events[i].Timer? && states[i].ctl.busConnected
    ensures |states[i + 1].acts| == |states[i].acts|
              + (if Expired(states[i].ctl, events[i].at) then 2 else 1) * Due(states[i + 1].ctl, states[i].last)
  {
    assert Enabled(states[i], events[i]) && states[i + 1] == Step(states[i], events[i]);
    hide IsRun, Enabled, Step, Due, Intended;
    StepFollows(states[i], events[i]);
  }

  /** No change of intent is left lying: a change that alters the plan asked for, or brings the bus
      up, begins an activation with the new plan, unless the bus is down or the plan is a release
      already remembered. */
  lemma ChangesActivate(ctl: C.State, states: seq<State>, events: seq<Event>, i: nat)
    requires IsRun(ctl, states, events) && i < |events| && states[i + 1].ctl.busConnected
    requires Intended(states[i + 1].ctl) != Intended(states[i].ctl) || !states[i].ctl.busConnected
    requires Intended(states[i + 1].ctl).Drive? || states[i].last != Released
    ensures |states[i + 1].acts| > |states[i].acts|
    ensures states[i + 1].acts[|states[i + 1].acts| - 1].plan == Intended(states[i + 1].ctl)
  {
    assert Enabled(states[i], events[i]) && states[i + 1] == Step(states[i], events[i]);
    hide IsRun, Enabled, Step;
    StepFollows(states[i], events[i]);
  }

  /** With the bus up and a speed to drive, the newest activation is for that speed. */
  ghost predicate Current(e: State) {
    e.ctl.busConnected && Intended(e.ctl).Drive? ==>
      |e.acts| > 0 && e.acts[|e.acts| - 1].plan == Intended(e.ctl)
  }

  lemma StepCurrent(e: State, ev: Event)
    requires Enabled(e, ev) && (Current(e) || ev.Timer?)
    ensures Current(Step(e, ev))
  {
    hide Enabled, Step;
    StepFollows(e, ev);
    ResumeBeginsNone(e, ev);
  }

  /** In every run that starts with the bus down, or after the first keep-alive tick, the newest
      activation drives the speed that the control state asks for, whenever it asks for one and the
      bus is up. */
  lemma {:induction false} NewestIsCurrent(ctl: C.State, states: seq<State>, events: seq<Event>, s: nat, t: nat)
    requires IsRun(ctl, states, events) && s <= t < |states|
    requires if s == 0 then !ctl.busConnected else events[s - 1].Timer?
    ensures Current(states[t])
    decreases t
  {
    hide Enabled, Step, Current;
    if t > 0 {
      assert Enabled(states[t - 1], events[t - 1]) && states[t] == Step(states[t - 1], events[t - 1]);
      if s < t { NewestIsCurrent(ctl, states, events, s, t - 1); }
      StepCurrent(states[t - 1], events[t - 1]);
    } else {
      NothingDriven(ctl);
    }
  }

  lemma NothingDriven(ctl: C.State)
    requires !ctl.busConnected
    ensures Current(Start(ctl))
  {}
}
