/** The whole path: control intent, activations, queue, bytes on the bus, reads, the guardian's
    intent, and the bytes it holds the pump with. */
module EndToEnd {
  import opened Protocol
  import opened Parser
  import opened Messages
  import opened HandOver
  import opened Engine
  import opened EngineOrder
  import opened EngineIntent
  import Q = CommandQueue
  import C = ControlState
  import G = Guardian

  /** The jobs handed to the bridge that arrived at the guardian; any others were lost. */
  function Arrived(handed: seq<Q.Handed>, ids: set<nat>): seq<Q.Job> {
    if handed == [] then []
    else
      var before, job := Arrived(handed[..|handed| - 1], ids), handed[|handed| - 1].job;
      if job.id in ids then before + [job] else before
  }

  function Msgs(jobs: seq<Q.Job>): (ms: seq<Msg>)
    ensures |ms| == |jobs| && forall i :: 0 <= i < |jobs| ==> ms[i] == jobs[i].msg
  {
    seq(|jobs|, i requires 0 <= i < |jobs| => jobs[i].msg)
  }

  /** Jobs in the order they were sent, each labelled by its activation. */
  ghost predicate GoodLine(acts: seq<Act>, jobs: seq<Q.Job>) {
    && (forall i, j :: 0 <= i < j < |jobs| ==> jobs[i].id < jobs[j].id)
    && (forall i :: 0 <= i < |jobs| ==> LabelOk(acts, jobs[i]))
  }

  lemma {:induction false} ArrivedFrom(handed: seq<Q.Handed>, ids: set<nat>, i: nat) returns (j: nat)
    requires i < |Arrived(handed, ids)|
    ensures j < |handed| && handed[j].job == Arrived(handed, ids)[i]
    decreases |handed|
  {
    var n := |handed| - 1;
    if i < |Arrived(handed[..n], ids)| {
      j := ArrivedFrom(handed[..n], ids, i);
    } else {
      j := n;
    }
  }

  lemma {:induction false} ArrivedKeeps(handed: seq<Q.Handed>, ids: set<nat>, j: nat) returns (i: nat)
    requires j < |handed| && handed[j].job.id in ids
    ensures i < |Arrived(handed, ids)| && Arrived(handed, ids)[i] == handed[j].job
    decreases |handed|
  {
    var n := |handed| - 1;
    if j < n {
      i := ArrivedKeeps(handed[..n], ids, j);
    } else {
      i := |Arrived(handed[..n], ids)|;
    }
  }

  lemma {:induction false} ArrivedGood(acts: seq<Act>, handed: seq<Q.Handed>, ids: set<nat>)
    requires forall i, j :: 0 <= i < j < |handed| ==> handed[i].job.id < handed[j].job.id
    requires forall i :: 0 <= i < |handed| ==> LabelOk(acts, handed[i].job)
    ensures GoodLine(acts, Arrived(handed, ids))
    decreases |handed|
  {
    hide LabelOk;
    if handed != [] {
      var n := |handed| - 1;
      ArrivedGood(acts, handed[..n], ids);
      var before := Arrived(handed[..n], ids);
      forall i | 0 <= i < |before| ensures before[i].id < handed[n].job.id {
        var j := ArrivedFrom(handed[..n], ids, i);
      }
    }
  }

  ghost predicate Has(jobs: seq<Q.Job>, id: nat) { exists i :: 0 <= i < |jobs| && jobs[i].id == id }

  lemma IndexOf(jobs: seq<Q.Job>, id: nat) returns (i: nat)
    requires Has(jobs, id)
    ensures i < |jobs| && jobs[i].id == id
  {
    i :| 0 <= i < |jobs| && jobs[i].id == id;
  }

  // ---------- the last word of each kind ----------

  lemma {:induction false} FoldRemote(i: G.Intent, ms: seq<Msg>, p: nat)
    requires p < |ms| && ms[p].Remote? && forall j :: p < j < |ms| ==> !ms[j].Remote?
    ensures Fold(i, ms).remote == ms[p].on
    decreases |ms|
  {
    if p < |ms| - 1 { FoldRemote(i, ms[..|ms| - 1], p); }
  }

  lemma {:induction false} FoldRunning(i: G.Intent, ms: seq<Msg>, p: nat)
    requires p < |ms| && ms[p].Run? && forall j :: p < j < |ms| ==> !ms[j].Run?
    ensures Fold(i, ms).running == ms[p].on
    decreases |ms|
  {
    if p < |ms| - 1 { FoldRunning(i, ms[..|ms| - 1], p); }
  }

  lemma {:induction false} FoldSpeed(i: G.Intent, ms: seq<Msg>, p: nat)
    requires p < |ms| && ms[p].Rpm? && forall j :: p < j < |ms| ==> !ms[j].Rpm?
    ensures Fold(i, ms).rpm == ClampRpm(ms[p].target)
    decreases |ms|
  {
    if p < |ms| - 1 { FoldSpeed(i, ms[..|ms| - 1], p); }
  }

  /** After a job of the newest activation, nothing else of that kind follows. */
  lemma NothingOfKindAfter(acts: seq<Act>, x: Q.Job, y: Q.Job, k: nat)
    requires Matrix(acts) && LabelOk(acts, x) && LabelOk(acts, y) && x.id < y.id
    requires |acts| > 0 && x.waiter == Q.Activation(|acts| - 1, k)
    ensures !(y.waiter.Activation? && y.waiter.stage == k)
  {
    if y.waiter.Activation? && y.waiter.stage == k {
      LaterJobLaterDecision(acts, x, y);
      assert false;
    }
  }

  /** Which kind of frame a job carries is the stage it was sent at. */
  lemma KindIsStage(acts: seq<Act>, y: Q.Job)
    requires LabelOk(acts, y)
    ensures y.msg.Remote? <==> y.waiter.Activation? && y.waiter.stage == 0
    ensures y.msg.Run? <==> y.waiter.Activation? && y.waiter.stage == 1
    ensures y.msg.Rpm? <==> y.waiter.Activation? && y.waiter.stage == 2
  {}

  /** Where the newest activation's k-th job sits, and that it is the last of its kind. */
  lemma LastOfKind(acts: seq<Act>, jobs: seq<Q.Job>, k: nat, p: nat)
    requires Matrix(acts) && GoodLine(acts, jobs) && |acts| > 0
    requires p < |jobs| && Sent(acts, |acts| - 1, k) && jobs[p].id == acts[|acts| - 1].jobs[k]
    ensures jobs[p].waiter == Q.Activation(|acts| - 1, k)
    ensures forall j :: p < j < |jobs| ==> !(jobs[j].waiter.Activation? && jobs[j].waiter.stage == k)
  {
    assert LabelOk(acts, jobs[p]);
    forall j | p < j < |jobs| ensures !(jobs[j].waiter.Activation? && jobs[j].waiter.stage == k) {
      assert LabelOk(acts, jobs[j]);
      NothingOfKindAfter(acts, jobs[p], jobs[j], k);
    }
  }

  /** If all three frames of the newest activation arrived, the guardian's intent is exactly
      that activation's, whatever else arrived and whatever was lost. */
  lemma NewestBurstIsTheIntent(i: G.Intent, acts: seq<Act>, jobs: seq<Q.Job>, t: real)
    requires Matrix(acts) && GoodLine(acts, jobs) && |acts| > 0
    requires var newest := acts[|acts| - 1]; newest.plan.Drive? && newest.plan.target == t > 0.0 && |newest.jobs| == 3
    requires forall id :: id in acts[|acts| - 1].jobs ==> Has(jobs, id)
    ensures Fold(i, Msgs(jobs)) == G.Intent(true, true, ClampRpm(t))
  {
    var n := |acts| - 1;
    assert Sent(acts, n, 0) && Sent(acts, n, 1) && Sent(acts, n, 2);
    var p0 := IndexOf(jobs, acts[n].jobs[0]);
    var p1 := IndexOf(jobs, acts[n].jobs[1]);
    var p2 := IndexOf(jobs, acts[n].jobs[2]);
    LastOfKind(acts, jobs, 0, p0);
    LastOfKind(acts, jobs, 1, p1);
    LastOfKind(acts, jobs, 2, p2);
    forall j | 0 <= j < |jobs| ensures LabelOk(acts, jobs[j]) {}
    assert jobs[p0].msg == PlanFrames(acts[n].plan)[0];
    assert jobs[p1].msg == PlanFrames(acts[n].plan)[1];
    assert jobs[p2].msg == PlanFrames(acts[n].plan)[2];
    hide Matrix;
    forall j | 0 <= j < |jobs|
      ensures (jobs[j].msg.Remote? <==> jobs[j].waiter.Activation? && jobs[j].waiter.stage == 0)
           && (jobs[j].msg.Run? <==> jobs[j].waiter.Activation? && jobs[j].waiter.stage == 1)
           && (jobs[j].msg.Rpm? <==> jobs[j].waiter.Activation? && jobs[j].waiter.stage == 2)
    {
      KindIsStage(acts, jobs[j]);
    }
    hide LabelOk;
    FoldRemote(i, Msgs(jobs), p0);
    FoldRunning(i, Msgs(jobs), p1);
    FoldSpeed(i, Msgs(jobs), p2);
  }

  /** If all frames of a newest activation that releases or stops arrived, the guardian has
      nothing to hold. */
  lemma NewestStopIsTheIntent(i: G.Intent, acts: seq<Act>, jobs: seq<Q.Job>)
    requires Matrix(acts) && GoodLine(acts, jobs) && |acts| > 0
    requires var newest := acts[|acts| - 1];
             && (newest.plan.Release? || newest.plan.target <= 0.0)
             && |newest.jobs| == |PlanFrames(newest.plan)|
    requires forall id :: id in acts[|acts| - 1].jobs ==> Has(jobs, id)
    ensures !Fold(i, Msgs(jobs)).IsRunning()
  {
    var n := |acts| - 1;
    var k := if acts[n].plan.Release? then 0 else 1;
    assert Sent(acts, n, k);
    var p := IndexOf(jobs, acts[n].jobs[k]);
    LastOfKind(acts, jobs, k, p);
    assert LabelOk(acts, jobs[p]);
    assert jobs[p].msg == PlanFrames(acts[n].plan)[k];
    hide Matrix;
    forall j | 0 <= j < |jobs|
      ensures (jobs[j].msg.Remote? <==> jobs[j].waiter.Activation? && jobs[j].waiter.stage == 0)
           && (jobs[j].msg.Run? <==> jobs[j].waiter.Activation? && jobs[j].waiter.stage == 1)
    {
      KindIsStage(acts, jobs[j]);
    }
    hide LabelOk;
    if k == 0 { FoldRemote(i, Msgs(jobs), p); } else { FoldRunning(i, Msgs(jobs), p); }
  }

  // ---------- the theorem ----------

  /** What the guardian should write at once when the app vanishes after a decision. */
  function Promised(plan: Plan, pump: int): seq<Bytes> {
    if plan.Drive? && ClampRpm(plan.target) > 0 then BurstBytes(plan.target, pump) else []
  }

  /** From intent to held bytes: in any run of the engine and its queue, with any interleaving,
      loss and failure, let the frames of the newest activation be among those that reached the
      guardian on one connection, whose bytes arrived in any chunks and were cut anywhere after
      them. When the app then vanishes, the guardian holds the pump exactly if that activation
      drives it, and writes exactly its burst; after a release or a stop it writes nothing. */
  lemma NewestDecisionIsHeld(ctl: C.State, states: seq<State>, events: seq<Event>, at: nat,
                             ids: set<nat>, c: G.Config, g: G.State, n: nat, chunks: seq<Bytes>, now: int)
    requires IsRun(ctl, states, events) && at < |states| && |states[at].acts| > 0
    requires var newest := states[at].acts[|states[at].acts| - 1];
             |newest.jobs| == |PlanFrames(newest.plan)|
    requires 0 <= c.pumpAddr < 256
    requires var stream := Stream(Msgs(Arrived(states[at].q.handed, ids)), c.pumpAddr);
             n <= |stream| && Concat(chunks) == stream[..n]
    requires var jobs := Arrived(states[at].q.handed, ids);
             forall id :: id in states[at].acts[|states[at].acts| - 1].jobs ==>
               Has(jobs[..Complete(Msgs(jobs), c.pumpAddr, n)], id)
    ensures var (g', writes) := G.OnDisconnect(c, ObserveAll(c, G.OnConnect(g), chunks), now, true);
            var promised := Promised(states[at].acts[|states[at].acts| - 1].plan, c.pumpAddr);
            writes == promised && g'.phase == if promised == [] then G.Idle else G.Holding
  {
    hide *;
    var e := states[at];
    var jobs := Arrived(e.q.handed, ids);
    var k := Complete(Msgs(jobs), c.pumpAddr, n);
    EveryRunInv(ctl, states, events, at);
    LineOf(e, ids);
    PrefixGood(e.acts, jobs, k);
    assert Msgs(jobs)[..k] == Msgs(jobs[..k]);
    NewestDecides(g.intent, e.acts, jobs[..k]);
    IntentHandedOver(c, g, Msgs(jobs), n, chunks);
    HoldKeepsPromise(c, ObserveAll(c, G.OnConnect(g), chunks), e.acts[|e.acts| - 1].plan, now);
  }

  /** The speed a control state drives at. */
  function Speed(ctl: C.State): real { if ctl.mode == C.Manual then ctl.manualRpm else ctl.scheduledRpm }

  /** And the plan is the control state's: with the bus up and a speed to drive, by hand or by an
      active schedule, once the newest activation's frames have reached the guardian it holds the
      pump, when the app vanishes, with exactly the burst for the speed in the control state; a
      speed that clamps to zero is not held. */
  lemma IntentIsHeld(ctl: C.State, states: seq<State>, events: seq<Event>, s: nat, at: nat,
                     ids: set<nat>, c: G.Config, g: G.State, n: nat, chunks: seq<Bytes>, now: int)
    requires IsRun(ctl, states, events) && s <= at < |states| && |states[at].acts| > 0
    requires if s == 0 then !ctl.busConnected else events[s - 1].Timer?
    requires states[at].ctl.busConnected
    requires states[at].ctl.mode == C.Manual || (states[at].ctl.mode == C.Schedule && states[at].ctl.scheduleActive)
    requires var newest := states[at].acts[|states[at].acts| - 1];
             |newest.jobs| == |PlanFrames(newest.plan)|
    requires 0 <= c.pumpAddr < 256
    requires var stream := Stream(Msgs(Arrived(states[at].q.handed, ids)), c.pumpAddr);
             n <= |stream| && Concat(chunks) == stream[..n]
    requires var jobs := Arrived(states[at].q.handed, ids);
             forall id :: id in states[at].acts[|states[at].acts| - 1].jobs ==>
               Has(jobs[..Complete(Msgs(jobs), c.pumpAddr, n)], id)
    ensures var (g', writes) := G.OnDisconnect(c, ObserveAll(c, G.OnConnect(g), chunks), now, true);
            var t := Speed(states[at].ctl);
            && (ClampRpm(t) > 0 ==> g'.phase == G.Holding && writes == BurstBytes(t, c.pumpAddr))
            && (ClampRpm(t) == 0 ==> g'.phase == G.Idle && writes == [])
  {
    hide *;
    NewestIsCurrent(ctl, states, events, s, at);
    NewestDrives(states[at]);
    NewestDecisionIsHeld(ctl, states, events, at, ids, c, g, n, chunks, now);
    PromisedBurst(states[at].acts[|states[at].acts| - 1].plan, c.pumpAddr);
  }

  lemma NewestDrives(e: State)
    requires Current(e) && e.ctl.busConnected && |e.acts| > 0
    requires e.ctl.mode == C.Manual || (e.ctl.mode == C.Schedule && e.ctl.scheduleActive)
    ensures e.acts[|e.acts| - 1].plan == Drive(e.ctl.mode, Speed(e.ctl))
  {}

  lemma PromisedBurst(plan: Plan, pump: int)
    requires plan.Drive?
    ensures BurstBytes(plan.target, pump) != []
    ensures Promised(plan, pump) == if ClampRpm(plan.target) > 0 then BurstBytes(plan.target, pump) else []
  {}

  /** The intent is what a plan asks for. */
  predicate Means(i: G.Intent, plan: Plan) {
    if plan.Drive? && plan.target > 0.0 then i == G.Intent(true, true, ClampRpm(plan.target)) else !i.IsRunning()
  }

  lemma NewestDecides(i: G.Intent, acts: seq<Act>, jobs: seq<Q.Job>)
    requires Matrix(acts) && GoodLine(acts, jobs) && |acts| > 0
    requires |acts[|acts| - 1].jobs| == |PlanFrames(acts[|acts| - 1].plan)|
    requires forall id :: id in acts[|acts| - 1].jobs ==> Has(jobs, id)
    ensures Means(Fold(i, Msgs(jobs)), acts[|acts| - 1].plan)
  {
    var plan := acts[|acts| - 1].plan;
    hide Matrix, GoodLine, Has, Fold;
    if plan.Drive? && plan.target > 0.0 {
      NewestBurstIsTheIntent(i, acts, jobs, plan.target);
    } else {
      NewestStopIsTheIntent(i, acts, jobs);
    }
  }

  lemma HoldKeepsPromise(c: G.Config, g: G.State, plan: Plan, now: int)
    requires Means(g.intent, plan)
    ensures var (g', writes) := G.OnDisconnect(c, g, now, true);
            var promised := Promised(plan, c.pumpAddr);
            writes == promised && g'.phase == if promised == [] then G.Idle else G.Holding
  {
    if plan.Drive? {
      if plan.target > 0.0 { HoldRepeatsBurst(c, g, plan.target, now); } else { NothingToClamp(plan.target); }
    }
  }

  lemma NothingToClamp(t: real)
    requires t <= 0.0
    ensures ClampRpm(t) == 0
  {}

  lemma LineOf(e: State, ids: set<nat>)
    requires Inv(e)
    ensures Matrix(e.acts) && GoodLine(e.acts, Arrived(e.q.handed, ids))
  {
    InvInOrder(e);
    assert forall i, j :: 0 <= i < j < |e.q.handed| ==> e.q.handed[i].job.id < e.q.handed[j].job.id;
    assert Matrix(e.acts);
    hide Inv, LabelOk;
    forall i | 0 <= i < |e.q.handed| ensures LabelOk(e.acts, e.q.handed[i].job) {
      assert e.q.handed[i] in e.q.handed;
    }
    ArrivedGood(e.acts, e.q.handed, ids);
  }

  lemma PrefixGood(acts: seq<Act>, jobs: seq<Q.Job>, k: nat)
    requires GoodLine(acts, jobs) && k <= |jobs|
    ensures GoodLine(acts, jobs[..k])
  {}
}
