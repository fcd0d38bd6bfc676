/** Order on the wire: under any interleaving of activations, overflow, stale drops and write
    failures, frames of one kind reach the bridge in the order the activations decided. */
module EngineOrder {
  import opened Messages
  import opened Options
  import opened Engine
  import Q = CommandQueue
  import C = ControlState

  // ---------- the invariant ----------

  /** Activation a has made its k-th send. */
  predicate Sent(acts: seq<Act>, a: int, k: int) { 0 <= a < |acts| && 0 <= k < |acts[a].jobs| }

  ghost predicate Shape(acts: seq<Act>, n: nat) {
    && (forall a :: 0 <= a < |acts| ==> 1 <= |acts[a].jobs| <= |PlanFrames(acts[a].plan)|)
    && (forall a, k :: Sent(acts, a, k) ==> acts[a].jobs[k] < n)
  }

  /** At every stage, a later activation's send is the later send. */
  ghost predicate Matrix(acts: seq<Act>) {
    forall a, b, k :: a < b && Sent(acts, a, k) && Sent(acts, b, k) ==> acts[a].jobs[k] < acts[b].jobs[k]
  }

  /** A send that was followed by the next one had been handed to the bridge. */
  ghost predicate Progress(acts: seq<Act>, q: Q.State) {
    forall a, k :: Sent(acts, a, k) && k + 1 < |acts[a].jobs| ==> Q.WasHanded(q, acts[a].jobs[k])
  }

  ghost predicate IsReady(q: Q.State, act: Act) {
    act.open && |act.jobs| > 0 && Awaited(q, act) == Some(Q.Resolved)
  }

  /** A send resolved but not yet acted on is the last one handed, and the loop sleeps. */
  ghost predicate Pending(acts: seq<Act>, q: Q.State) {
    forall a :: 0 <= a < |acts| && IsReady(q, acts[a]) ==>
      var last := acts[a].jobs[|acts[a].jobs| - 1];
      q.drain.Gap? && last == Q.HighWater(q) && Q.WasHanded(q, last)
  }

  /** A job carries the frame and the owner its activation gave it, and no other. */
  ghost predicate LabelOk(acts: seq<Act>, job: Q.Job) {
    && (forall a, k :: Sent(acts, a, k) && acts[a].jobs[k] == job.id ==> job.waiter == Q.Activation(a, k))
    && match job.waiter
       case Nobody => job.msg == Status
       case Activation(a, k) =>
         && Sent(acts, a, k) && acts[a].jobs[k] == job.id
         && k < |PlanFrames(acts[a].plan)| && job.msg == PlanFrames(acts[a].plan)[k]
  }

  ghost predicate Labelled(acts: seq<Act>, q: Q.State) {
    forall job :: Q.InLine(q, job) ==> LabelOk(acts, job) && job.id < q.submitted
  }

  ghost predicate Inv(e: State) {
    && Q.Inv(e.q) && Shape(e.acts, e.q.submitted) && Matrix(e.acts)
    && Progress(e.acts, e.q) && Pending(e.acts, e.q) && Labelled(e.acts, e.q)
  }

  // ---------- growing the table of sends ----------

  /** The table of activations after one more send: a new row, or a longer one. */
  predicate Grows(acts: seq<Act>, acts': seq<Act>, a: nat, id: nat) {
    && |acts| <= |acts'| && a < |acts'|
    && (forall b :: 0 <= b < |acts'| && b != a ==> b < |acts| && acts'[b] == acts[b])
    && |acts'[a].jobs| > 0 && acts'[a].jobs[|acts'[a].jobs| - 1] == id
    && if a < |acts| then acts'[a].plan == acts[a].plan && acts'[a].jobs == acts[a].jobs + [id]
       else a == |acts| && acts'[a].jobs == [id]
  }

  lemma GrowsLabels(acts: seq<Act>, acts': seq<Act>, a: nat, id: nat, job: Q.Job)
    requires Grows(acts, acts', a, id) && LabelOk(acts, job) && job.id < id
    ensures LabelOk(acts', job)
  {
    forall b, k | Sent(acts', b, k) && acts'[b].jobs[k] == job.id ensures job.waiter == Q.Activation(b, k) {
      assert Sent(acts, b, k) && acts[b].jobs[k] == job.id;
    }
  }

  lemma GrowsNewLabel(acts: seq<Act>, acts': seq<Act>, a: nat, id: nat, job: Q.Job)
    requires Grows(acts, acts', a, id) && Shape(acts, id)
    requires job.id == id && job.waiter == Q.Activation(a, |acts'[a].jobs| - 1)
    requires |acts'[a].jobs| <= |PlanFrames(acts'[a].plan)| && job.msg == PlanFrames(acts'[a].plan)[|acts'[a].jobs| - 1]
    ensures LabelOk(acts', job)
  {
    assert forall b, k :: Sent(acts, b, k) ==> acts[b].jobs[k] < id;
    forall b, k | Sent(acts', b, k) && acts'[b].jobs[k] == id ensures job.waiter == Q.Activation(b, k) {}
  }

  lemma GrowsMatrix(acts: seq<Act>, acts': seq<Act>, a: nat, id: nat)
    requires Grows(acts, acts', a, id) && Shape(acts, id) && Matrix(acts)
    requires forall b :: a < b < |acts| ==> |acts[b].jobs| < |acts'[a].jobs|
    ensures Matrix(acts')
  {
    forall b, c, k | b < c && Sent(acts', b, k) && Sent(acts', c, k) ensures acts'[b].jobs[k] < acts'[c].jobs[k] {
      if Sent(acts, b, k) && Sent(acts, c, k) {
        assert acts'[b].jobs[k] == acts[b].jobs[k] && acts'[c].jobs[k] == acts[c].jobs[k];
      } else if c == a {
        assert Sent(acts, b, k);
      }
    }
  }

  lemma GrowsShape(acts: seq<Act>, acts': seq<Act>, a: nat, id: nat)
    requires Grows(acts, acts', a, id) && Shape(acts, id)
    requires |acts'[a].jobs| <= |PlanFrames(acts'[a].plan)|
    ensures Shape(acts', id + 1)
  {
    forall b, k | Sent(acts', b, k) ensures acts'[b].jobs[k] < id + 1 {
      if Sent(acts, b, k) { assert acts[b].jobs[k] < id && acts'[b].jobs[k] == acts[b].jobs[k]; }
    }
  }

  lemma GrowsProgress(acts: seq<Act>, acts': seq<Act>, a: nat, id: nat, q: Q.State, q': Q.State)
    requires Grows(acts, acts', a, id) && Progress(acts, q) && q.handed <= q'.handed
    requires a < |acts| && |acts[a].jobs| > 0 ==> Q.WasHanded(q, acts[a].jobs[|acts[a].jobs| - 1])
    ensures Progress(acts', q')
  {
    forall b, k | Sent(acts', b, k) && k + 1 < |acts'[b].jobs| ensures Q.WasHanded(q', acts'[b].jobs[k]) {
      assert Sent(acts, b, k);
      Q.HandedStays(q, q', acts[b].jobs[k]);
    }
  }

  /** Settling nothing but discards, and moving no write while one is pending, keeps Pending. */
  lemma GrowsPending(acts: seq<Act>, acts': seq<Act>, a: nat, id: nat, q: Q.State, msg: Msg, w: Q.Waiter, now: int)
    requires Grows(acts, acts', a, id) && Pending(acts, q) && Shape(acts, id) && Q.Inv(q) && id == q.submitted
    ensures Pending(acts', Q.OnSend(q, msg, w, now))
  {
    var q' := Q.OnSend(q, msg, w, now);
    hide Q.OnSend, Q.Ordered, Q.Partitioned, Q.Serial, Q.Fresh;
    forall b | 0 <= b < |acts'| && IsReady(q', acts'[b])
      ensures var last := acts'[b].jobs[|acts'[b].jobs| - 1];
              q'.drain.Gap? && last == Q.HighWater(q') && Q.WasHanded(q', last)
    {
      var last := acts'[b].jobs[|acts'[b].jobs| - 1];
      Q.SendOnlyDiscards(q, msg, w, now, last, Q.Job(0, msg, w, now));
      Q.OutcomeKnown(q, last);
      assert b != a && IsReady(q, acts[b]);
    }
  }

  lemma SendLabels(acts: seq<Act>, acts': seq<Act>, a: nat, q: Q.State, msg: Msg, now: int)
    requires Grows(acts, acts', a, q.submitted) && Shape(acts, q.submitted) && Labelled(acts, q)
    requires |acts'[a].jobs| <= |PlanFrames(acts'[a].plan)| && msg == PlanFrames(acts'[a].plan)[|acts'[a].jobs| - 1]
    ensures Labelled(acts', Q.OnSend(q, msg, Q.Activation(a, |acts'[a].jobs| - 1), now))
  {
    var w := Q.Activation(a, |acts'[a].jobs| - 1);
    var q' := Q.OnSend(q, msg, w, now);
    Q.SendSubmits(q, msg, w, now);
    forall job | Q.InLine(q', job) ensures LabelOk(acts', job) && job.id < q'.submitted {
      Q.SendOnlyDiscards(q, msg, w, now, 0, job);
      if Q.InLine(q, job) {
        GrowsLabels(acts, acts', a, q.submitted, job);
      } else {
        GrowsNewLabel(acts, acts', a, q.submitted, job);
      }
    }
  }

  /** One more send of an activation, as its first or after its previous one resolved. */
  lemma SendKeeps(e: State, acts': seq<Act>, a: nat, msg: Msg, now: int)
    requires Inv(e) && Grows(e.acts, acts', a, e.q.submitted)
    requires |acts'[a].jobs| <= |PlanFrames(acts'[a].plan)| && msg == PlanFrames(acts'[a].plan)[|acts'[a].jobs| - 1]
    requires a < |e.acts| ==> IsReady(e.q, e.acts[a])
    ensures Inv(e.(acts := acts', q := Q.OnSend(e.q, msg, Q.Activation(a, |acts'[a].jobs| - 1), now)))
  {
    hide Shape, Matrix, Progress, Pending, Labelled, Q.Inv, Q.OnSend, Q.WasHanded, Awaited;
    var id, w := e.q.submitted, Q.Activation(a, |acts'[a].jobs| - 1);
    if a < |e.acts| { NoneAhead(e, a); }
    Q.SendSubmits(e.q, msg, w, now);
    Q.SendKeeps(e.q, msg, w, now);
    SendLabels(e.acts, acts', a, e.q, msg, now);
    GrowsShape(e.acts, acts', a, id);
    GrowsPending(e.acts, acts', a, id, e.q, msg, w, now);
    GrowsProgress(e.acts, acts', a, id, e.q, Q.OnSend(e.q, msg, w, now));
    GrowsMatrix(e.acts, acts', a, id);
  }

  lemma HandedBelowHighWater(q: Q.State, id: nat)
    requires Q.Ordered(q) && Q.WasHanded(q, id)
    ensures id <= Q.HighWater(q)
  {
    var i :| 0 <= i < |q.handed| && q.handed[i].job.id == id;
    if i < |q.handed| - 1 { assert q.handed[i].job.id < q.handed[|q.handed| - 1].job.id; }
  }

  /** The heart of the order: when an activation continues, no later one is already past it.
      Its send was the last one handed; a later activation that is a stage further had its own
      send of that stage handed too, and that send came after. */
  lemma NoneAhead(e: State, a: nat)
    requires Inv(e) && a < |e.acts| && IsReady(e.q, e.acts[a])
    ensures Q.WasHanded(e.q, e.acts[a].jobs[|e.acts[a].jobs| - 1])
    ensures forall b :: a < b < |e.acts| ==> |e.acts[b].jobs| <= |e.acts[a].jobs|
  {
    var k := |e.acts[a].jobs| - 1;
    forall b | a < b < |e.acts| ensures |e.acts[b].jobs| <= |e.acts[a].jobs| {
      if |e.acts[b].jobs| > k + 1 {
        assert Sent(e.acts, a, k) && Sent(e.acts, b, k);
        HandedBelowHighWater(e.q, e.acts[b].jobs[k]);
        assert false;
      }
    }
  }

  // ---------- every event ----------

  /** Closing an activation, or changing the control state or the mode last applied. */
  lemma CloseKeeps(e: State, a: nat, ok: bool, last: LastMode)
    requires Inv(e) && a < |e.acts|
    ensures Inv(e.(last := last, acts := e.acts[a := e.acts[a].(open := false, ok := ok)]))
  {
    var acts' := e.acts[a := e.acts[a].(open := false, ok := ok)];
    assert forall b :: 0 <= b < |acts'| ==> acts'[b].jobs == e.acts[b].jobs && acts'[b].plan == e.acts[b].plan;
    assert forall b, k :: Sent(acts', b, k) <==> Sent(e.acts, b, k);
    SameTable(e.acts, acts', e.q);
  }

  lemma SameTable(acts: seq<Act>, acts': seq<Act>, q: Q.State)
    requires |acts'| == |acts|
    requires forall b :: 0 <= b < |acts'| ==> acts'[b].jobs == acts[b].jobs && acts'[b].plan == acts[b].plan
    requires forall b :: 0 <= b < |acts'| ==> acts'[b].open ==> acts[b].open
    requires Shape(acts, q.submitted) && Matrix(acts) && Progress(acts, q) && Pending(acts, q) && Labelled(acts, q)
    ensures Shape(acts', q.submitted) && Matrix(acts') && Progress(acts', q) && Pending(acts', q) && Labelled(acts', q)
  {
    assert forall b, k :: Sent(acts', b, k) <==> Sent(acts, b, k);
    forall b, c, k | b < c && Sent(acts', b, k) && Sent(acts', c, k) ensures acts'[b].jobs[k] < acts'[c].jobs[k] {
      assert Sent(acts, b, k) && Sent(acts, c, k);
    }
    forall b | 0 <= b < |acts'| && IsReady(q, acts'[b]) ensures IsReady(q, acts[b]) {}
    forall job | Q.InLine(q, job) ensures LabelOk(acts', job) {
      assert LabelOk(acts, job);
    }
  }

  lemma BeginKeeps(e: State, plan: Plan, now: int)
    requires Inv(e)
    ensures Inv(Begin(e, plan, now))
  {
    var acts' := e.acts + [Act(plan, [e.q.submitted], true, false)];
    hide Inv;
    SendKeeps(e, acts', |e.acts|, PlanFrames(plan)[0], now);
  }

  lemma ApplyKeeps(e: State, now: int)
    requires Inv(e)
    ensures Inv(OnApply(e, now))
  {
    var ctl := C.OnTickOverride(e.ctl, now).0;
    var e1 := e.(ctl := ctl);
    assert Inv(e1);
    hide Inv, Begin;
    DecideKeeps(e1, now);
    DecideKeeps(Decide(e1, now), now);
  }

  lemma DecideKeeps(e: State, now: int)
    requires Inv(e)
    ensures Inv(Decide(e, now))
  {
    hide Inv, Begin;
    BeginKeeps(e, Release, now);
    BeginKeeps(e, Drive(e.ctl.mode, e.ctl.TargetRpm()), now);
  }

  lemma ControlKeeps(e: State, c: C.Change, now: int)
    requires Inv(e)
    ensures Inv(OnControl(e, c, now))
  {
    var e1 := e.(ctl := C.OnChange(e.ctl, c, now).0);
    assert Inv(e1);
    hide Inv, OnApply;
    ApplyKeeps(e1, now);
  }

  lemma ResumeKeeps(e: State, a: nat, now: int)
    requires Inv(e) && a < |e.acts| && e.acts[a].open && |e.acts[a].jobs| > 0 && Awaited(e.q, e.acts[a]).Some?
    ensures Inv(OnResume(e, a, now))
  {
    hide Inv, Awaited, Q.OnSend, Matrix, Progress, Pending, Labelled, Shape;
    var act := e.acts[a];
    var ok := Awaited(e.q, act) == Some(Q.Resolved);
    if !act.plan.Release? && ok && |act.jobs| < |PlanFrames(act.plan)| {
      var acts' := e.acts[a := act.(jobs := act.jobs + [e.q.submitted])];
      SendKeeps(e, acts', a, PlanFrames(act.plan)[|act.jobs|], now);
    } else {
      CloseKeeps(e, a, ok, e.last);
      CloseKeeps(e, a, ok, Released);
      if act.plan.Drive? {
        CloseKeeps(e, a, act.ok, e.last);
        CloseKeeps(e, a, true, Applied(act.plan.mode));
      }
    }
  }

  lemma PollPending(acts: seq<Act>, q: Q.State, now: int)
    requires Pending(acts, q)
    ensures Pending(acts, Q.OnSend(q, Status, Q.Nobody, now))
  {
    var q' := Q.OnSend(q, Status, Q.Nobody, now);
    hide Q.OnSend;
    forall b | 0 <= b < |acts| && IsReady(q', acts[b])
      ensures var last := acts[b].jobs[|acts[b].jobs| - 1];
              q'.drain.Gap? && last == Q.HighWater(q') && Q.WasHanded(q', last)
    {
      Q.SendOnlyDiscards(q, Status, Q.Nobody, now, acts[b].jobs[|acts[b].jobs| - 1], Q.Job(0, Status, Q.Nobody, now));
      assert IsReady(q, acts[b]);
    }
  }

  lemma PollLabels(acts: seq<Act>, q: Q.State, now: int)
    requires Shape(acts, q.submitted) && Labelled(acts, q)
    ensures Shape(acts, q.submitted + 1) && Labelled(acts, Q.OnSend(q, Status, Q.Nobody, now))
  {
    var q' := Q.OnSend(q, Status, Q.Nobody, now);
    Q.SendSubmits(q, Status, Q.Nobody, now);
    hide Q.OnSend, Q.InLine;
    forall job | Q.InLine(q', job) ensures LabelOk(acts, job) && job.id < q'.submitted {
      Q.SendOnlyDiscards(q, Status, Q.Nobody, now, 0, job);
    }
  }

  lemma PollKeeps(e: State, now: int)
    requires Inv(e)
    ensures Inv(e.(q := Q.OnSend(e.q, Status, Q.Nobody, now)))
  {
    hide Shape, Matrix, Progress, Pending, Labelled, Q.Inv, Q.OnSend;
    Q.SendKeeps(e.q, Status, Q.Nobody, now);
    PollPending(e.acts, e.q, now);
    PollLabels(e.acts, e.q, now);
    HandedGrowsProgress(e.acts, e.q, Q.OnSend(e.q, Status, Q.Nobody, now));
  }

  lemma HandedGrowsProgress(acts: seq<Act>, q: Q.State, q': Q.State)
    requires Progress(acts, q) && q.handed <= q'.handed
    ensures Progress(acts, q')
  {
    forall a, k | Sent(acts, a, k) && k + 1 < |acts[a].jobs| ensures Q.WasHanded(q', acts[a].jobs[k]) {
      Q.HandedStays(q, q', acts[a].jobs[k]);
    }
  }

  lemma WriteDoneKeeps(e: State, ok: bool)
    requires Inv(e) && e.q.drain.Writing?
    ensures Inv(e.(q := Q.OnWriteDone(e.q, ok)))
  {
    var q' := Q.OnWriteDone(e.q, ok);
    Q.WriteDoneKeeps(e.q, ok);
    HandedGrowsProgress(e.acts, e.q, q');
    assert forall job :: Q.InLine(q', job) <==> Q.InLine(e.q, job);
    forall b | 0 <= b < |e.acts| && IsReady(q', e.acts[b])
      ensures var last := e.acts[b].jobs[|e.acts[b].jobs| - 1];
              q'.drain.Gap? && last == Q.HighWater(q') && Q.WasHanded(q', last)
    {
      var last := e.acts[b].jobs[|e.acts[b].jobs| - 1];
      Q.OutcomeSnoc(e.q.settled, q'.settled[|e.q.settled|], last);
      assert q'.settled == e.q.settled + [q'.settled[|e.q.settled|]];
      assert !IsReady(e.q, e.acts[b]);
    }
  }

  lemma GapKeeps(e: State, now: int)
    requires Inv(e) && e.q.drain.Gap? && forall a :: 0 <= a < |e.acts| ==> !IsReady(e.q, e.acts[a])
    ensures Inv(e.(q := Q.OnGapOver(e.q, now)))
  {
    var q' := Q.OnGapOver(e.q, now);
    Q.GapKeeps(e.q, now);
    HandedGrowsProgress(e.acts, e.q, q');
    forall job | Q.InLine(q', job) ensures LabelOk(e.acts, job) && job.id < q'.submitted {
      Q.PumpOnlyDiscards(e.q, now, 0, job);
    }
    forall b | 0 <= b < |e.acts| ensures !IsReady(q', e.acts[b]) {
      if IsReady(q', e.acts[b]) {
        Q.PumpOnlyDiscards(e.q, now, e.acts[b].jobs[|e.acts[b].jobs| - 1], Q.Job(0, Status, Q.Nobody, now));
      }
    }
  }

  lemma StepKeeps(e: State, ev: Event)
    requires Inv(e) && Enabled(e, ev)
    ensures Inv(Step(e, ev))
  {
    match ev {
      case Control(at, c) => ControlKeeps(e, c, at);
      case Timer(at) => ApplyKeeps(e, at);
      case Poll(at) => PollKeeps(e, at);
      case WriteDone(_, ok) => WriteDoneKeeps(e, ok);
      case GapOver(at) =>
        assert forall a :: 0 <= a < |e.acts| ==> (IsReady(e.q, e.acts[a]) <==> Ready(e, a));
        GapKeeps(e, at);
      case Resume(at, a) => ResumeKeeps(e, a, at);
    }
  }

  lemma {:induction false} EveryRunInv(ctl: C.State, states: seq<State>, events: seq<Event>, i: nat)
    requires IsRun(ctl, states, events) && i < |states|
    ensures Inv(states[i])
  {
    if i == 0 {
      assert Q.SettledIds([]) == [] && Q.JobIds([]) == [] && Q.UpTo(0) == [];
    } else {
      EveryRunInv(ctl, states, events, i - 1);
      assert Enabled(states[i - 1], events[i - 1]) && states[i] == Step(states[i - 1], events[i - 1]);
      hide Inv, Step, Enabled;
      StepKeeps(states[i - 1], events[i - 1]);
    }
  }

  // ---------- the result ----------

  /** Two frames of one kind on their way to the bus: the earlier one was decided earlier. */
  ghost predicate InOrder(handed: seq<Q.Handed>) {
    forall i, j :: 0 <= i < j < |handed| && handed[i].job.waiter.Activation? && handed[j].job.waiter.Activation?
      && handed[i].job.waiter.stage == handed[j].job.waiter.stage
      ==> handed[i].job.waiter.id < handed[j].job.waiter.id
  }

  /** Every frame handed to the bridge is a status poll or the frame its activation planned;
      and per kind they are handed over in the order of the decisions, so an older setpoint
      never follows a newer one. */
  lemma OlderNeverOverwritesNewer(ctl: C.State, states: seq<State>, events: seq<Event>, i: nat)
    requires IsRun(ctl, states, events) && i < |states|
    ensures InOrder(states[i].q.handed)
    ensures forall h :: h in states[i].q.handed ==> LabelOk(states[i].acts, h.job)
  {
    EveryRunInv(ctl, states, events, i);
    InvInOrder(states[i]);
  }

  lemma InvInOrder(e: State)
    requires Inv(e)
    ensures InOrder(e.q.handed)
    ensures forall h :: h in e.q.handed ==> LabelOk(e.acts, h.job)
  {
    forall h | h in e.q.handed ensures LabelOk(e.acts, h.job) {
      assert Q.InLine(e.q, h.job);
    }
    var hs := e.q.handed;
    assert forall i, j :: 0 <= i < j < |hs| ==> hs[i].job.id < hs[j].job.id;
    assert Matrix(e.acts);
    hide Inv, Q.Inv, Labelled;
    forall i, j | 0 <= i < j < |hs| && hs[i].job.waiter.Activation? && hs[j].job.waiter.Activation?
      && hs[i].job.waiter.stage == hs[j].job.waiter.stage
      ensures hs[i].job.waiter.id < hs[j].job.waiter.id
    {
      assert hs[i] in hs && hs[j] in hs;
      LaterJobLaterDecision(e.acts, hs[i].job, hs[j].job);
    }
  }

  lemma LaterJobLaterDecision(acts: seq<Act>, x: Q.Job, y: Q.Job)
    requires Matrix(acts) && LabelOk(acts, x) && LabelOk(acts, y) && x.id < y.id
    requires x.waiter.Activation? && y.waiter.Activation? && x.waiter.stage == y.waiter.stage
    ensures x.waiter.id < y.waiter.id
  {
    var a, b, k := x.waiter.id, y.waiter.id, x.waiter.stage;
    assert Sent(acts, a, k) && Sent(acts, b, k);
  }
}
