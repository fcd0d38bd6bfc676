/** What the engine reports is true: an apply() that ran to its end had every one of its frames
    written, and the mode remembered as applied is one whose frames were. */
module EngineReports {
  import opened Options
  import opened Engine
  import opened EngineOrder
  import EngineOff
  import Q = CommandQueue
  import C = ControlState

  predicate Written(q: Q.State, id: nat) { Q.OutcomeOf(q.settled, id) == Some(Q.Resolved) }

  /** A send that was followed by another, or by the end of its activation, was written. */
  ghost predicate SendsTruthful(acts: seq<Act>, q: Q.State) {
    forall a, k :: Sent(acts, a, k) && (k + 1 < |acts[a].jobs| || acts[a].ok) ==> Written(q, acts[a].jobs[k])
  }

  ghost predicate EndsTruthful(acts: seq<Act>) {
    forall a :: 0 <= a < |acts| && acts[a].ok ==> |acts[a].jobs| == |PlanFrames(acts[a].plan)|
  }

  /** Activation a ran to its end in this mode. */
  predicate Finished(acts: seq<Act>, a: int, mode: C.Mode) {
    0 <= a < |acts| && acts[a].ok && acts[a].plan.Drive? && acts[a].plan.mode == mode
  }

  ghost predicate ModeTruthful(acts: seq<Act>, last: LastMode) {
    last.Applied? ==> exists a :: Finished(acts, a, last.mode)
  }

  ghost predicate Truthful(e: State) {
    SendsTruthful(e.acts, e.q) && EndsTruthful(e.acts) && ModeTruthful(e.acts, e.last)
  }

  /** Only new activations, and only settlements added. */
  ghost predicate Extends(e: State, e': State) {
    && e.q.settled <= e'.q.settled && e'.last == e.last
    && |e.acts| <= |e'.acts|
    && (forall a :: 0 <= a < |e.acts| ==> e'.acts[a] == e.acts[a])
    && (forall a :: |e.acts| <= a < |e'.acts| ==> |e'.acts[a].jobs| == 1 && !e'.acts[a].ok && e'.acts[a].open)
  }

  lemma WrittenStays(q: Q.State, q': Q.State, id: nat)
    requires q.settled <= q'.settled && Q.Inv(q') && Written(q, id)
    ensures Written(q', id)
  {
    Q.OutcomeStays(q, q', id);
  }

  lemma ExtendsKeeps(e: State, e': State)
    requires Truthful(e) && Extends(e, e') && Q.Inv(e'.q)
    ensures Truthful(e')
  {
    hide Q.Inv, Written;
    forall a, k | Sent(e'.acts, a, k) && (k + 1 < |e'.acts[a].jobs| || e'.acts[a].ok)
      ensures Written(e'.q, e'.acts[a].jobs[k])
    {
      assert Sent(e.acts, a, k);
      WrittenStays(e.q, e'.q, e.acts[a].jobs[k]);
    }
    if e.last.Applied? {
      var a :| Finished(e.acts, a, e.last.mode);
      assert Finished(e'.acts, a, e.last.mode);
    }
  }

  lemma DecideExtends(e: State, now: int)
    ensures Extends(e, Decide(e, now))
  {
    hide Q.OnSend;
    EngineOff.DecideGrows(e, now);
  }

  lemma ApplyExtends(e: State, now: int)
    ensures Extends(e, OnApply(e, now))
  {
    hide Decide;
    var e1 := e.(ctl := C.OnTickOverride(e.ctl, now).0);
    DecideExtends(e1, now);
    DecideExtends(Decide(e1, now), now);
  }

  lemma EventExtends(e: State, ev: Event)
    requires Enabled(e, ev) && !ev.Resume?
    ensures Extends(e, Step(e, ev))
  {
    hide OnApply, Q.OnSend, Q.OnGapOver;
    EngineOff.StepGrows(e, ev);
    match ev {
      case Control(at, c) => ApplyExtends(e.(ctl := C.OnChange(e.ctl, c, at).0), at);
      case Timer(at) => ApplyExtends(e, at);
      case Poll(_) =>
      case WriteDone(_, _) =>
      case GapOver(_) =>
    }
  }

  /** An activation whose send was written makes its next one. */
  lemma ResumeSendsTruth(e: State, a: nat, now: int)
    requires Truthful(e) && a < |e.acts| && IsReady(e.q, e.acts[a]) && Q.Inv(OnResume(e, a, now).q)
    requires e.acts[a].plan.Drive? && |e.acts[a].jobs| < |PlanFrames(e.acts[a].plan)|
    requires e.q.settled <= OnResume(e, a, now).q.settled
    ensures Truthful(OnResume(e, a, now))
  {
    hide Q.OnSend, Q.Inv;
    var e' := OnResume(e, a, now);
    var n := |e.acts[a].jobs|;
    assert Written(e.q, e.acts[a].jobs[n - 1]);
    var full := |PlanFrames(e.acts[a].plan)|;
    assert e.acts[a].ok ==> n == full;
    assert e'.acts[a].jobs[..n] == e.acts[a].jobs && |e'.acts[a].jobs| == n + 1;
    assert forall b :: 0 <= b < |e.acts| && b != a ==> e'.acts[b] == e.acts[b];
    hide Written, OnResume, IsReady, Awaited;
    forall b, k | Sent(e'.acts, b, k) && (k + 1 < |e'.acts[b].jobs| || e'.acts[b].ok)
      ensures Written(e'.q, e'.acts[b].jobs[k])
    {
      assert Sent(e.acts, b, k);
      WrittenStays(e.q, e'.q, e.acts[b].jobs[k]);
    }
    if e.last.Applied? {
      var b :| Finished(e.acts, b, e.last.mode);
      assert Finished(e'.acts, b, e.last.mode);
    }
  }

  /** An activation ends: with ok only if its last send was written. */
  lemma CloseTruth(e: State, a: nat, ok: bool, last: LastMode)
    requires Truthful(e) && a < |e.acts| && |e.acts[a].jobs| > 0
    requires ok ==> Written(e.q, e.acts[a].jobs[|e.acts[a].jobs| - 1])
    requires ok ==> |e.acts[a].jobs| == |PlanFrames(e.acts[a].plan)|
    requires e.acts[a].ok ==> ok
    requires last == e.last || last == Released
             || (ok && e.acts[a].plan.Drive? && last == Applied(e.acts[a].plan.mode))
    ensures Truthful(e.(last := last, acts := e.acts[a := e.acts[a].(open := false, ok := ok)]))
  {
    hide Written;
    var acts' := e.acts[a := e.acts[a].(open := false, ok := ok)];
    forall b, k | Sent(acts', b, k) && (k + 1 < |acts'[b].jobs| || acts'[b].ok) ensures Written(e.q, acts'[b].jobs[k]) {
      assert Sent(e.acts, b, k);
    }
    if last == e.last && last.Applied? {
      var b :| Finished(e.acts, b, last.mode);
      assert Finished(acts', b, last.mode);
    } else if last.Applied? {
      assert Finished(acts', a, last.mode);
    }
  }

  lemma ResumeTruth(e: State, a: nat, now: int)
    requires Truthful(e) && a < |e.acts| && e.acts[a].open && |e.acts[a].jobs| > 0 && !e.acts[a].ok
    requires Q.Inv(OnResume(e, a, now).q) && e.q.settled <= OnResume(e, a, now).q.settled
    requires |e.acts[a].jobs| <= |PlanFrames(e.acts[a].plan)|
    ensures Truthful(OnResume(e, a, now))
  {
    hide Q.Inv, Truthful;
    var act := e.acts[a];
    var ok := Awaited(e.q, act) == Some(Q.Resolved);
    if act.plan.Release? {
      CloseTruth(e, a, ok, Released);
    } else if !ok {
      CloseTruth(e, a, false, e.last);
    } else if |act.jobs| < |PlanFrames(act.plan)| {
      ResumeSendsTruth(e, a, now);
    } else {
      CloseTruth(e, a, true, Applied(act.plan.mode));
    }
  }

  /** An activation that ended well is not open. */
  ghost predicate EndedClosed(acts: seq<Act>) { forall a :: 0 <= a < |acts| && acts[a].ok ==> !acts[a].open }

  lemma EndedClosedKept(e: State, ev: Event)
    requires Enabled(e, ev) && EndedClosed(e.acts)
    ensures EndedClosed(Step(e, ev).acts)
  {
    if !ev.Resume? { EventExtendsActs(e, ev); }
  }

  /** New activations are open and have not ended. */
  lemma EventExtendsActs(e: State, ev: Event)
    requires Enabled(e, ev) && !ev.Resume?
    ensures var acts' := Step(e, ev).acts;
            |acts'| >= |e.acts| && acts'[..|e.acts|] == e.acts && forall a :: |e.acts| <= a < |acts'| ==> !acts'[a].ok
  {
    hide Step, Enabled;
    EventExtends(e, ev);
  }

  lemma StepTruth(e: State, ev: Event)
    requires Inv(e) && Enabled(e, ev) && Truthful(e) && EndedClosed(e.acts)
    ensures Truthful(Step(e, ev))
  {
    StepKeeps(e, ev);
    EngineOff.StepGrows(e, ev);
    if ev.Resume? {
      assert Shape(e.acts, e.q.submitted);
      hide Truthful, Inv, OnResume;
      assert Q.Inv(OnResume(e, ev.act, ev.at).q) by { QueueInv(Step(e, ev)); }
      ResumeTruth(e, ev.act, ev.at);
    } else {
      QueueInv(Step(e, ev));
      hide *;
      EventExtends(e, ev);
      ExtendsKeeps(e, Step(e, ev));
    }
  }

  lemma QueueInv(e: State)
    requires Inv(e)
    ensures Q.Inv(e.q)
  {}

  lemma {:induction false} EveryRunTruthful(ctl: C.State, states: seq<State>, events: seq<Event>, i: nat)
    requires IsRun(ctl, states, events) && i < |states|
    ensures Truthful(states[i]) && EndedClosed(states[i].acts)
  {
    if i > 0 {
      EveryRunTruthful(ctl, states, events, i - 1);
      EveryRunInv(ctl, states, events, i - 1);
      assert Enabled(states[i - 1], events[i - 1]) && states[i] == Step(states[i - 1], events[i - 1]);
      hide Inv, Truthful, Step, Enabled, EndedClosed;
      EndedClosedKept(states[i - 1], events[i - 1]);
      StepTruth(states[i - 1], events[i - 1]);
    }
  }

  /** In every run, an activation that ran to its end sent all frames of its plan, and every one
      was written; and a mode is remembered as applied only if some drive in that mode was. */
  lemma AppliedMeansWritten(ctl: C.State, states: seq<State>, events: seq<Event>, i: nat, a: nat)
    requires IsRun(ctl, states, events) && i < |states|
    ensures var e := states[i];
            && (a < |e.acts| && e.acts[a].ok ==>
                  && |e.acts[a].jobs| == |PlanFrames(e.acts[a].plan)|
                  && forall id :: id in e.acts[a].jobs ==> Written(e.q, id))
            && (e.last.Applied? ==> exists b :: Finished(e.acts, b, e.last.mode))
  {
    EveryRunTruthful(ctl, states, events, i);
    var e := states[i];
    if a < |e.acts| && e.acts[a].ok {
      forall id | id in e.acts[a].jobs ensures Written(e.q, id) {
        var k :| 0 <= k < |e.acts[a].jobs| && e.acts[a].jobs[k] == id;
        assert Sent(e.acts, a, k);
      }
    }
  }
}
