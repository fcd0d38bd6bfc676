/** Why activations end: one that stopped short did so because its last send failed or was
    discarded; otherwise it went through its whole plan. */
module EngineEnds {
  import opened Options
  import opened Engine
  import opened EngineOrder
  import opened EngineReports
  import opened EngineWritten
  import EngineOff
  import Q = CommandQueue
  import C = ControlState

  /** An ended activation ended well exactly if its last send was written. */
  ghost predicate EndsForCause(acts: seq<Act>, q: Q.State) {
    forall a :: 0 <= a < |acts| && !acts[a].open ==>
      |acts[a].jobs| > 0 && (acts[a].ok <==> Written(q, acts[a].jobs[|acts[a].jobs| - 1]))
  }

  lemma LastSettled(acts: seq<Act>, q: Q.State, a: nat)
    requires Settling(acts, q) && a < |acts| && !acts[a].open && |acts[a].jobs| > 0
    ensures Q.OutcomeOf(q.settled, acts[a].jobs[|acts[a].jobs| - 1]).Some?
  {
    assert Sent(acts, a, |acts[a].jobs| - 1);
  }

  /** An ended activation that is left alone stays as it ended. */
  lemma StaysEnded(e: State, e': State, a: nat)
    requires EndsForCause(e.acts, e.q) && Settling(e.acts, e.q) && Q.Inv(e'.q) && e.q.settled <= e'.q.settled
    requires a < |e.acts| && a < |e'.acts| && e'.acts[a] == e.acts[a] && !e.acts[a].open
    ensures |e'.acts[a].jobs| > 0
    ensures e'.acts[a].ok <==> Written(e'.q, e'.acts[a].jobs[|e'.acts[a].jobs| - 1])
  {
    LastSettled(e.acts, e.q, a);
    Q.OutcomeStays(e.q, e'.q, e.acts[a].jobs[|e.acts[a].jobs| - 1]);
    hide Q.Inv, Settling;
  }

  lemma ExtendsEnds(e: State, e': State)
    requires EndsForCause(e.acts, e.q) && Settling(e.acts, e.q) && Q.Inv(e'.q) && Extends(e, e')
    ensures EndsForCause(e'.acts, e'.q)
  {
    hide Q.Inv, Settling, Written;
    forall a | 0 <= a < |e'.acts| && !e'.acts[a].open
      ensures |e'.acts[a].jobs| > 0
      ensures e'.acts[a].ok <==> Written(e'.q, e'.acts[a].jobs[|e'.acts[a].jobs| - 1])
    {
      StaysEnded(e, e', a);
    }
  }

  /** How the activation that continues fares. */
  lemma ResumedAct(e: State, a: nat, now: int)
    requires a < |e.acts| && e.acts[a].open && |e.acts[a].jobs| > 0 && !e.acts[a].ok
    requires |e.acts[a].jobs| <= |PlanFrames(e.acts[a].plan)|
    ensures var e' := OnResume(e, a, now);
            && |e'.acts| == |e.acts| && (forall b :: 0 <= b < |e.acts| && b != a ==> e'.acts[b] == e.acts[b])
            && (!e'.acts[a].open ==>
                  && e'.acts[a].jobs == e.acts[a].jobs && e'.q == e.q
                  && (e'.acts[a].ok <==> Written(e.q, e.acts[a].jobs[|e.acts[a].jobs| - 1])))
  {
    hide Q.OnSend, Q.OutcomeOf;
  }

  lemma ResumeEnds(e: State, a: nat, now: int)
    requires EndsForCause(e.acts, e.q) && Settling(e.acts, e.q)
    requires a < |e.acts| && e.acts[a].open && |e.acts[a].jobs| > 0 && !e.acts[a].ok
    requires |e.acts[a].jobs| <= |PlanFrames(e.acts[a].plan)|
    requires Q.Inv(OnResume(e, a, now).q) && e.q.settled <= OnResume(e, a, now).q.settled
    ensures EndsForCause(OnResume(e, a, now).acts, OnResume(e, a, now).q)
  {
    hide Q.Inv, Settling, Written, OnResume;
    var e' := OnResume(e, a, now);
    ResumedAct(e, a, now);
    forall b | 0 <= b < |e'.acts| && !e'.acts[b].open
      ensures |e'.acts[b].jobs| > 0
      ensures e'.acts[b].ok <==> Written(e'.q, e'.acts[b].jobs[|e'.acts[b].jobs| - 1])
    {
      if b != a { StaysEnded(e, e', b); }
    }
  }

  lemma StepEnds(e: State, ev: Event)
    requires Inv(e) && Enabled(e, ev) && Settling(e.acts, e.q) && EndsForCause(e.acts, e.q) && EndedClosed(e.acts)
    ensures EndsForCause(Step(e, ev).acts, Step(e, ev).q)
  {
    assert Shape(e.acts, e.q.submitted);
    hide Inv, Settling, EndsForCause, OnResume, OnApply, OnControl, Q.OnSend, Q.Inv;
    StepKeeps(e, ev);
    QueueInv(Step(e, ev));
    EngineOff.StepGrows(e, ev);
    if ev.Resume? {
      ResumeEnds(e, ev.act, ev.at);
    } else {
      EventExtends(e, ev);
      ExtendsEnds(e, Step(e, ev));
    }
  }

  lemma {:induction false} EveryRunEnds(ctl: C.State, states: seq<State>, events: seq<Event>, i: nat)
    requires IsRun(ctl, states, events) && i < |states|
    ensures EndsForCause(states[i].acts, states[i].q)
  {
    hide Inv, Step, Enabled, Settling;
    if i > 0 {
      EveryRunEnds(ctl, states, events, i - 1);
      EveryRunInv(ctl, states, events, i - 1);
      EveryRunSettling(ctl, states, events, i - 1);
      EveryRunTruthful(ctl, states, events, i - 1);
      assert Enabled(states[i - 1], events[i - 1]) && states[i] == Step(states[i - 1], events[i - 1]);
      StepEnds(states[i - 1], events[i - 1]);
    }
  }

  /** In every run, an activation that ended without sending its whole plan did so because its
      last send failed or was discarded; and one whose sends were all written ended well, with
      every frame of its plan sent. */
  lemma NothingCutShort(ctl: C.State, states: seq<State>, events: seq<Event>, i: nat, a: nat)
    requires IsRun(ctl, states, events) && i < |states| && a < |states[i].acts| && !states[i].acts[a].open
    ensures var e := states[i]; var act := e.acts[a];
            && |act.jobs| > 0
            && var outcome := Q.OutcomeOf(e.q.settled, act.jobs[|act.jobs| - 1]);
               && (outcome == Some(Q.Resolved) ==> act.ok && |act.jobs| == |PlanFrames(act.plan)|)
               && outcome.Some?
               && (outcome != Some(Q.Resolved) ==> !act.ok && (outcome.value.WriteFailed? || outcome.value.Discarded?))
  {
    EveryRunEnds(ctl, states, events, i);
    AppliedMeansWritten(ctl, states, events, i, a);
    EveryRunSettling(ctl, states, events, i);
    var act := states[i].acts[a];
    LastSettled(states[i].acts, states[i].q, a);
    var outcome := Q.OutcomeOf(states[i].q.settled, act.jobs[|act.jobs| - 1]);
    assert outcome.value.Resolved? || outcome.value.WriteFailed? || outcome.value.Discarded?;
    hide IsRun, Settling;
  }
}
