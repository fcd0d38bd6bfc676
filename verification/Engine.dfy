/** The keep-alive engine: asynchronous activations of apply() in flight at once, each sending
    its frames one by one through the command queue and awaiting every one. */
module Engine {
  import opened Messages
  import Q = CommandQueue
  import C = ControlState
  import opened Options

  /** What one activation decided to do when it read the control state. */
  datatype Plan = Release | Drive(mode: C.Mode, target: real)

  /** The frames of a plan, one per stage: remote control, then run or stop, then the speed. */
  function PlanFrames(p: Plan): (fs: seq<Msg>)
    ensures 1 <= |fs| <= 3
    ensures forall k :: 0 <= k < |fs| ==>
              (k == 0 <==> fs[k].Remote?) && (k == 1 <==> fs[k].Run?) && (k == 2 <==> fs[k].Rpm?)
  {
    match p
    case Release => [Remote(false)]
    case Drive(_, t) => if t > 0.0 then [Remote(true), Run(true), Rpm(t)] else [Remote(true), Run(false)]
  }

  /** One activation past its first send: the ids of its sends so far, one per stage; open
      while it awaits the last of them; ok if it ran to its end. */
  datatype Act = Act(plan: Plan, jobs: seq<nat>, open: bool, ok: bool)

  datatype LastMode = Never | Released | Applied(mode: C.Mode)

  datatype State = State(ctl: C.State, last: LastMode, acts: seq<Act>, q: Q.State)

  function Start(ctl: C.State): State { State(ctl, Never, [], Q.INITIAL) }

  /** Outcome of the send an activation awaits. */
  function Awaited(q: Q.State, act: Act): Option<Q.Outcome>
    requires |act.jobs| > 0
  {
    Q.OutcomeOf(q.settled, act.jobs[|act.jobs| - 1])
  }

  // ---------- what each event does ----------

  /** A new activation makes its first send. */
  function Begin(e: State, plan: Plan, now: int): State {
    e.(acts := e.acts + [Act(plan, [e.q.submitted], true, false)],
       q := Q.OnSend(e.q, PlanFrames(plan)[0], Q.Activation(|e.acts|, 0), now))
  }

  /** apply() from reading the mode to its first await. */
  function Decide(e: State, now: int): State {
    if e.ctl.Releasing() then
      if e.last == Released then e else Begin(e, Release, now)
    else Begin(e, Drive(e.ctl.mode, e.ctl.TargetRpm()), now)
  }

  /** apply(): an override that runs out first re-enters apply() through the change callback. */
  function OnApply(e: State, now: int): State {
    if !e.ctl.busConnected then e
    else
      var (ctl, fired) := C.OnTickOverride(e.ctl, now);
      var e1 := e.(ctl := ctl);
      Decide(if fired then Decide(e1, now) else e1, now)
  }

  function OnControl(e: State, c: C.Change, now: int): State {
    var (ctl, notify) := C.OnChange(e.ctl, c, now);
    var e1 := e.(ctl := ctl);
    if notify then OnApply(e1, now) else e1
  }

  /** The awaited send of activation a has settled and the activation continues. */
  function OnResume(e: State, a: nat, now: int): State
    requires a < |e.acts| && |e.acts[a].jobs| > 0
  {
    var act := e.acts[a];
    var ok := Awaited(e.q, act) == Some(Q.Resolved);
    if act.plan.Release? then
      e.(last := Released, acts := e.acts[a := act.(open := false, ok := ok)])
    else if !ok then
      e.(acts := e.acts[a := act.(open := false)])
    else if |act.jobs| < |PlanFrames(act.plan)| then
      e.(acts := e.acts[a := act.(jobs := act.jobs + [e.q.submitted])],
         q := Q.OnSend(e.q, PlanFrames(act.plan)[|act.jobs|], Q.Activation(a, |act.jobs|), now))
    else
      e.(last := Applied(act.plan.mode), acts := e.acts[a := act.(open := false, ok := true)])
  }

  // ---------- the class ----------

  class Engine {
    const state: C.ControlState
    const queue: Q.CommandQueue
    var lastAppliedMode: LastMode
    /** The suspended activations of apply(). */
    var acts: seq<Act>

    ghost predicate Valid()
      reads this, queue
    {
      queue.Valid() && forall a :: 0 <= a < |acts| ==> |acts[a].jobs| > 0
    }

    ghost function Abs(): State
      reads this, state, queue
    {
      State(state.Abs(), lastAppliedMode, acts, queue.Abs())
    }

    constructor (state: C.ControlState, queue: Q.CommandQueue)
      requires queue.Valid() && queue.Abs() == Q.INITIAL
      ensures this.state == state && this.queue == queue && Valid() && Abs() == Start(state.Abs())
    {
      this.state, this.queue, lastAppliedMode, acts := state, queue, Never, [];
    }

    method Launch(plan: Plan, now: int)
      requires Valid()
      modifies this`acts, queue
      ensures Valid() && Abs() == Begin(old(Abs()), plan, now)
    {
      var id := queue.Send(PlanFrames(plan)[0], Q.Activation(|acts|, 0), now);
      acts := acts + [Act(plan, [id], true, false)];
    }

    method Apply(now: int)
      requires Valid()
      modifies this, state, queue
      ensures Valid() && Abs() == OnApply(old(Abs()), now)
      decreases if state.controlMode == C.Manual then 1 else 0
    {
      if !state.busConnected { return; }
      var fired := state.TickOverride(now);
      if fired { Apply(now); } // notify() runs this very callback
      var mode := state.controlMode;
      if mode == C.Off || (mode == C.Schedule && !state.scheduleActive) {
        if lastAppliedMode != Released { Launch(Release, now); }
        return;
      }
      var target := state.TargetRpm();
      Launch(Drive(mode, target), now);
    }

    method Control(c: C.Change, now: int)
      requires Valid()
      modifies this, state, queue
      ensures Valid() && Abs() == OnControl(old(Abs()), c, now)
    {
      var notify := state.Apply(c, now);
      if notify { Apply(now); }
    }

    /** ok tells whether the awaited promise resolved. */
    method Resume(a: nat, ok: bool, now: int)
      requires Valid() && a < |acts|
      requires ok <==> Awaited(queue.Abs(), acts[a]) == Some(Q.Resolved)
      modifies this, queue
      ensures Valid() && Abs() == OnResume(old(Abs()), a, now)
    {
      var act := acts[a];
      match act.plan
      case Release =>
        acts := acts[a := act.(open := false, ok := ok)];
        lastAppliedMode := Released;
      case Drive(mode, target) =>
        if !ok {
          acts := acts[a := act.(open := false)];
        } else if |act.jobs| < |PlanFrames(act.plan)| {
          var id := queue.Send(PlanFrames(act.plan)[|act.jobs|], Q.Activation(a, |act.jobs|), now);
          acts := acts[a := act.(jobs := act.jobs + [id])];
        } else {
          acts := acts[a := act.(open := false, ok := true)];
          lastAppliedMode := Applied(mode);
        }
    }
  }

  // ---------- runs ----------

  datatype Event =
    | Control(at: int, change: C.Change)
    | Timer(at: int)
    | Poll(at: int)
    | WriteDone(at: int, ok: bool)
    | GapOver(at: int)
    | Resume(at: int, act: nat)

  /** An activation whose send resolved and which has not continued yet. */
  predicate Ready(e: State, a: nat) {
    && a < |e.acts| && e.acts[a].open && |e.acts[a].jobs| > 0
    && Awaited(e.q, e.acts[a]) == Some(Q.Resolved)
  }

  /** Any interleaving, except that an activation whose send resolved continues before the
      queue's 30 ms sleep ends: promise continuations run before any timer. */
  ghost predicate Enabled(e: State, ev: Event) {
    match ev
    case Control(_, _) => true
    case Timer(_) => true
    case Poll(_) => true
    case WriteDone(_, _) => e.q.drain.Writing?
    case GapOver(_) => e.q.drain.Gap? && forall a :: 0 <= a < |e.acts| ==> !Ready(e, a)
    case Resume(_, a) => a < |e.acts| && e.acts[a].open && |e.acts[a].jobs| > 0 && Awaited(e.q, e.acts[a]).Some?
  }

  ghost function Step(e: State, ev: Event): State
    requires Enabled(e, ev)
  {
    match ev
    case Control(at, c) => OnControl(e, c, at)
    case Timer(at) => OnApply(e, at)
    case Poll(at) => e.(q := Q.OnSend(e.q, Status, Q.Nobody, at))
    case WriteDone(_, ok) => e.(q := Q.OnWriteDone(e.q, ok))
    case GapOver(at) => e.(q := Q.OnGapOver(e.q, at))
    case Resume(at, a) => OnResume(e, a, at)
  }

  /** A run: the states passed through, from a start in any control state. */
  ghost predicate IsRun(ctl: C.State, states: seq<State>, events: seq<Event>) {
    && |states| == |events| + 1 && states[0] == Start(ctl)
    && forall i :: 0 <= i < |events| ==> Enabled(states[i], events[i]) && states[i + 1] == Step(states[i], events[i])
  }
}
