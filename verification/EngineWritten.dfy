/** What actually reached the bus: the last remote control frame that did, and exactly when
    handing control back makes it a release, whatever sends failed. */
module EngineWritten {
  import opened Messages
  import opened Options
  import opened Engine
  import opened EngineOrder
  import opened EngineOff
  import opened EngineReports
  import Q = CommandQueue
  import C = ControlState

  /** The last remote control frame that reached the bus, enable or release: of the frames handed
      to the bridge those with an id in ids did, in the order they were handed over. A rejected
      write may be among them, since a timeout leaves its bytes in the socket. */
  function LastReached(handed: seq<Q.Handed>, ids: set<nat>): Option<bool> {
    if handed == [] then None
    else
      var job := handed[|handed| - 1].job;
      if job.msg.Remote? && job.id in ids then Some(job.msg.on) else LastReached(handed[..|handed| - 1], ids)
  }

  /** The sends whose writes were acknowledged. */
  function Acknowledged(q: Q.State): set<nat> { set id: nat | id < q.submitted && Written(q, id) }

  /** The last remote control frame whose write was acknowledged. */
  function LastRemoteWritten(q: Q.State): Option<bool> { LastReached(q.handed, Acknowledged(q)) }

  // ---------- every send an activation has left behind is settled ----------

  /** A send followed by another, or by the end of its activation, has settled. */
  ghost predicate Settling(acts: seq<Act>, q: Q.State) {
    forall a, k :: Sent(acts, a, k) && (k + 1 < |acts[a].jobs| || !acts[a].open) ==>
      Q.OutcomeOf(q.settled, acts[a].jobs[k]).Some?
  }

  lemma ExtendsSettling(e: State, e': State)
    requires Settling(e.acts, e.q) && Extends(e, e') && Q.Inv(e'.q)
    ensures Settling(e'.acts, e'.q)
  {
    hide Q.Inv;
    forall a, k | Sent(e'.acts, a, k) && (k + 1 < |e'.acts[a].jobs| || !e'.acts[a].open)
      ensures Q.OutcomeOf(e'.q.settled, e'.acts[a].jobs[k]).Some?
    {
      assert Sent(e.acts, a, k);
      Q.OutcomeStays(e.q, e'.q, e.acts[a].jobs[k]);
    }
  }

  /** The activation that continues had its last send settled; the others are as before. */
  lemma ResumeSettling(e: State, a: nat, now: int)
    requires Settling(e.acts, e.q) && a < |e.acts| && e.acts[a].open && |e.acts[a].jobs| > 0
    requires Awaited(e.q, e.acts[a]).Some?
    requires Q.Inv(OnResume(e, a, now).q) && e.q.settled <= OnResume(e, a, now).q.settled
    ensures Settling(OnResume(e, a, now).acts, OnResume(e, a, now).q)
  {
    hide Q.Inv, Q.OnSend;
    var e' := OnResume(e, a, now);
    var n := |e.acts[a].jobs|;
    assert e.acts[a].jobs == e'.acts[a].jobs[..n] && |e'.acts[a].jobs| <= n + 1;
    assert |e'.acts[a].jobs| == n + 1 ==> e'.acts[a].open == e.acts[a].open;
    assert forall b :: 0 <= b < |e.acts| && b != a ==> e'.acts[b] == e.acts[b];
    hide OnResume;
    forall b, k | Sent(e'.acts, b, k) && (k + 1 < |e'.acts[b].jobs| || !e'.acts[b].open)
      ensures Q.OutcomeOf(e'.q.settled, e'.acts[b].jobs[k]).Some?
    {
      assert Sent(e.acts, b, k) && e'.acts[b].jobs[k] == e.acts[b].jobs[k];
      Q.OutcomeStays(e.q, e'.q, e.acts[b].jobs[k]);
    }
  }

  lemma StepSettling(e: State, ev: Event)
    requires Inv(e) && Enabled(e, ev) && Settling(e.acts, e.q)
    ensures Settling(Step(e, ev).acts, Step(e, ev).q)
  {
    hide Inv, Settling, OnResume, OnApply, OnControl, Q.OnSend, Q.Inv;
    StepKeeps(e, ev);
    QueueInv(Step(e, ev));
    StepGrows(e, ev);
    if ev.Resume? {
      ResumeSettling(e, ev.act, ev.at);
    } else {
      EventExtends(e, ev);
      ExtendsSettling(e, Step(e, ev));
    }
  }

  lemma {:induction false} EveryRunSettling(ctl: C.State, states: seq<State>, events: seq<Event>, i: nat)
    requires IsRun(ctl, states, events) && i < |states|
    ensures Settling(states[i].acts, states[i].q)
  {
    hide Inv, Step, Enabled;
    if i > 0 {
      EveryRunSettling(ctl, states, events, i - 1);
      EveryRunInv(ctl, states, events, i - 1);
      assert Enabled(states[i - 1], events[i - 1]) && states[i] == Step(states[i - 1], events[i - 1]);
      StepSettling(states[i - 1], events[i - 1]);
    }
  }

  // ---------- from a quiet state on, while control is to be handed back ----------

  /** A job nobody awaits, or of activation n or later. */
  predicate Later(job: Q.Job, n: nat) { job.waiter.Activation? ==> job.waiter.id >= n }

  /** What waits, and what was handed over beyond the first h writes, is of that kind. */
  ghost predicate OnlyLater(q: Q.State, h: nat, n: nat) {
    && h <= |q.handed|
    && (forall job :: job in q.queue ==> Later(job, n))
    && (forall j :: h <= j < |q.handed| ==> Later(q.handed[j].job, n))
  }

  /** From e0 to e only releases began, and none if "released" was remembered; what was done
      before stays as it was. */
  ghost predicate Window(e0: State, e: State) {
    && |e0.acts| <= |e.acts|
    && (forall a :: 0 <= a < |e0.acts| ==> e.acts[a] == e0.acts[a])
    && (forall a :: |e0.acts| <= a < |e.acts| ==>
          e.acts[a].plan.Release? && |e.acts[a].jobs| > 0 && e.acts[a].jobs[0] >= e0.q.submitted)
    && e0.q.submitted <= e.q.submitted
    && (e0.last == Released ==> e.last == Released && e.acts == e0.acts)
    && e0.q.handed <= e.q.handed && e0.q.settled <= e.q.settled
    && OnlyLater(e.q, |e0.q.handed|, |e0.acts|)
  }

  lemma PumpLater(q: Q.State, now: int, h: nat, n: nat)
    requires OnlyLater(q, h, n)
    ensures OnlyLater(Q.Pump(q, now), h, n)
  {
    hide Later;
    var k := Q.PumpMeans(q, now);
    assert k < |q.queue| ==> q.queue[k] in q.queue;
  }

  lemma SendLater(q: Q.State, msg: Msg, w: Q.Waiter, now: int, h: nat, n: nat)
    requires OnlyLater(q, h, n) && (w.Activation? ==> w.id >= n)
    ensures OnlyLater(Q.OnSend(q, msg, w, now), h, n)
  {
    hide Q.Pump;
    var q2 := Q.Push(Q.MakeRoom(q), Q.Job(q.submitted, msg, w, now));
    assert OnlyLater(q2, h, n);
    PumpLater(q2, now, h, n);
  }

  /** At a quiet state only polls wait: every activation's sends have settled. */
  lemma WindowOpens(e: State)
    requires Inv(e) && Settling(e.acts, e.q) && Quiet(e)
    ensures Window(e, e)
  {
    assert Q.Partitioned(e.q) && Labelled(e.acts, e.q);
    hide Inv, Settling, Quiet, Q.Partitioned, LabelOk, Labelled;
    forall job | job in e.q.queue ensures job.waiter.Nobody? {
      WaitingIsPoll(e, job);
    }
  }

  lemma WaitingIsPoll(e: State, job: Q.Job)
    requires Q.Partitioned(e.q) && Labelled(e.acts, e.q) && Settling(e.acts, e.q) && Quiet(e) && job in e.q.queue
    ensures job.waiter.Nobody?
  {
    assert Q.InLine(e.q, job);
    Q.SettledNotWaiting(e.q, job);
    assert LabelOk(e.acts, job);
  }

  lemma BeginWindow(e0: State, e: State, now: int)
    requires Window(e0, e) && e.last != Released
    ensures Window(e0, Begin(e, Release, now))
  {
    hide Q.OnSend, OnlyLater;
    var w := Q.Activation(|e.acts|, 0);
    Q.SendSubmits(e.q, PlanFrames(Release)[0], w, now);
    SendLater(e.q, PlanFrames(Release)[0], w, now, |e0.q.handed|, |e0.acts|);
  }

  lemma DecideWindow(e0: State, e: State, now: int)
    requires Window(e0, e) && e.ctl.Releasing()
    ensures Window(e0, Decide(e, now))
  {
    hide Window, Begin;
    if e.last != Released { BeginWindow(e0, e, now); }
  }

  lemma CtlWindow(e0: State, e: State, e1: State)
    requires Window(e0, e) && e1 == e.(ctl := e1.ctl)
    ensures Window(e0, e1)
  {}

  lemma ApplyWindow(e0: State, e: State, now: int)
    requires Window(e0, e) && OnApply(e, now).ctl.Releasing()
    ensures Window(e0, OnApply(e, now))
  {
    hide Window, Q.OnSend;
    if e.ctl.busConnected {
      var e1 := e.(ctl := C.OnTickOverride(e.ctl, now).0);
      assert OnApply(e, now).ctl == e1.ctl && Decide(e1, now).ctl == e1.ctl;
      CtlWindow(e0, e, e1);
      DecideWindow(e0, e1, now);
      DecideWindow(e0, Decide(e1, now), now);
    }
  }

  lemma QueueWindow(e0: State, e: State, q: Q.State)
    requires Window(e0, e) && e.q.handed <= q.handed && e.q.settled <= q.settled && e.q.submitted <= q.submitted
    requires OnlyLater(q, |e0.q.handed|, |e0.acts|)
    ensures Window(e0, e.(q := q))
  {
    hide OnlyLater;
  }

  lemma ResumeWindow(e0: State, e: State, a: nat, now: int)
    requires Window(e0, e) && Quiet(e0) && a < |e.acts| && e.acts[a].open && |e.acts[a].jobs| > 0
    ensures Window(e0, OnResume(e, a, now))
  {
    hide OnlyLater, Q.OnSend;
    assert a >= |e0.acts|;
  }

  lemma StepWindow(e0: State, e: State, ev: Event)
    requires Window(e0, e) && Quiet(e0) && Enabled(e, ev) && Step(e, ev).ctl.Releasing()
    ensures Window(e0, Step(e, ev))
  {
    hide Window, Quiet, OnApply, OnResume, Q.OnSend, Q.OnGapOver, OnlyLater;
    StepGrows(e, ev);
    OnlyLaterIn(e0, e);
    match ev {
      case Control(at, c) =>
        var e1 := e.(ctl := C.OnChange(e.ctl, c, at).0);
        CtlWindow(e0, e, e1);
        if C.OnChange(e.ctl, c, at).1 { ApplyWindow(e0, e1, at); }
      case Timer(at) => ApplyWindow(e0, e, at);
      case Poll(at) =>
        Q.SendSubmits(e.q, Status, Q.Nobody, at);
        SendLater(e.q, Status, Q.Nobody, at, |e0.q.handed|, |e0.acts|);
        QueueWindow(e0, e, Step(e, ev).q);
      case WriteDone(_, ok) =>
        SameLater(e.q, Q.OnWriteDone(e.q, ok), |e0.q.handed|, |e0.acts|);
        QueueWindow(e0, e, Step(e, ev).q);
      case GapOver(at) =>
        Q.PumpGrows(e.q, at);
        GapLater(e.q, at, |e0.q.handed|, |e0.acts|);
        QueueWindow(e0, e, Step(e, ev).q);
      case Resume(at, a) => ResumeWindow(e0, e, a, at);
    }
  }

  lemma OnlyLaterIn(e0: State, e: State)
    requires Window(e0, e)
    ensures OnlyLater(e.q, |e0.q.handed|, |e0.acts|)
  {}

  lemma SameLater(q: Q.State, q': Q.State, h: nat, n: nat)
    requires OnlyLater(q, h, n) && q'.queue == q.queue && q'.handed == q.handed
    ensures OnlyLater(q', h, n)
  {}

  lemma GapLater(q: Q.State, now: int, h: nat, n: nat)
    requires OnlyLater(q, h, n)
    ensures OnlyLater(Q.OnGapOver(q, now), h, n)
    ensures q.handed <= Q.OnGapOver(q, now).handed && q.settled <= Q.OnGapOver(q, now).settled
    ensures Q.OnGapOver(q, now).submitted == q.submitted
  {
    PumpLater(q, now, h, n);
    Q.PumpGrows(q, now);
  }

  lemma {:induction false} RunWindow(ctl: C.State, states: seq<State>, events: seq<Event>, s: nat, t: nat)
    requires IsRun(ctl, states, events) && s <= t < |states| && Quiet(states[s])
    requires forall i :: s <= i <= t ==> states[i].ctl.Releasing()
    ensures Window(states[s], states[t])
    decreases t - s
  {
    hide Window, Step, Enabled, Quiet, Inv, Settling;
    if s == t {
      EveryRunInv(ctl, states, events, s);
      EveryRunSettling(ctl, states, events, s);
      WindowOpens(states[s]);
    } else {
      RunWindow(ctl, states, events, s, t - 1);
      assert Enabled(states[t - 1], events[t - 1]) && states[t] == Step(states[t - 1], events[t - 1]);
      StepWindow(states[s], states[t - 1], events[t - 1]);
    }
  }

  // ---------- the last word on the bus ----------

  predicate RemoteReached(h: Q.Handed, ids: set<nat>) { h.job.msg.Remote? && h.job.id in ids }

  /** A tail in which every remote control frame is a release. */
  lemma {:induction false} LastReachedFrom(handed: seq<Q.Handed>, ids: set<nat>, h: nat)
    requires h <= |handed|
    requires forall j :: h <= j < |handed| && handed[j].job.msg.Remote? ==> !handed[j].job.msg.on
    ensures LastReached(handed, ids) ==
              if exists j :: h <= j < |handed| && RemoteReached(handed[j], ids) then Some(false)
              else LastReached(handed[..h], ids)
    decreases |handed|
  {
    var n := |handed| - 1;
    if h < |handed| {
      LastReachedFrom(handed[..n], ids, h);
      assert handed[..n][..h] == handed[..h];
      assert forall j :: h <= j < n ==> handed[..n][j] == handed[j];
      if RemoteReached(handed[n], ids) {
        assert LastReached(handed, ids) == Some(false);
      } else if j :| h <= j < |handed| && RemoteReached(handed[j], ids) {
        assert RemoteReached(handed[..n][j], ids);
      }
    } else {
      assert handed[..h] == handed;
    }
  }

  lemma {:induction false} LastReachedSame(handed: seq<Q.Handed>, ids: set<nat>, ids': set<nat>)
    requires forall j :: 0 <= j < |handed| ==> (RemoteReached(handed[j], ids) <==> RemoteReached(handed[j], ids'))
    ensures LastReached(handed, ids) == LastReached(handed, ids')
    decreases |handed|
  {
    if handed != [] {
      var n := |handed| - 1;
      assert RemoteReached(handed[n], ids) <==> RemoteReached(handed[n], ids');
      LastReachedSame(handed[..n], ids, ids');
    }
  }

  lemma HandedLabel(e: State, j: nat)
    requires Inv(e) && j < |e.q.handed|
    ensures LabelOk(e.acts, e.q.handed[j].job) && e.q.handed[j].job.id < e.q.submitted
  {
    assert Q.InLine(e.q, e.q.handed[j].job);
  }

  /** A remote control frame is some activation's first send. */
  lemma RemoteIsFirst(acts: seq<Act>, job: Q.Job)
    requires LabelOk(acts, job) && job.msg.Remote?
    ensures job.waiter.Activation? && job.waiter.stage == 0 && Sent(acts, job.waiter.id, 0)
    ensures acts[job.waiter.id].jobs[0] == job.id && job.msg.on == acts[job.waiter.id].plan.Drive?
  {}

  /** Some release begun since e0 was handed over and reached the bus. */
  ghost predicate ReleaseReached(e0: State, e: State, ids: set<nat>) {
    exists a :: |e0.acts| <= a < |e.acts| && |e.acts[a].jobs| > 0
                && e.acts[a].jobs[0] in ids && Q.WasHanded(e.q, e.acts[a].jobs[0])
  }

  /** A remote control frame handed over after e0 is a release begun after e0. */
  lemma NewRemote(e0: State, e: State, j: nat)
    requires Inv(e) && Window(e0, e) && |e0.q.handed| <= j < |e.q.handed| && e.q.handed[j].job.msg.Remote?
    ensures var job := e.q.handed[j].job;
            && !job.msg.on && job.waiter.Activation? && |e0.acts| <= job.waiter.id < |e.acts|
            && |e.acts[job.waiter.id].jobs| > 0 && e.acts[job.waiter.id].jobs[0] == job.id
  {
    HandedLabel(e, j);
    RemoteIsFirst(e.acts, e.q.handed[j].job);
    assert Later(e.q.handed[j].job, |e0.acts|);
  }

  /** Where the first send of a later activation sits among the writes begun since e0. */
  lemma NewReleaseHanded(e0: State, e: State, a: nat) returns (j: nat)
    requires Inv(e0) && Inv(e) && Window(e0, e)
    requires |e0.acts| <= a < |e.acts| && |e.acts[a].jobs| > 0 && Q.WasHanded(e.q, e.acts[a].jobs[0])
    ensures |e0.q.handed| <= j < |e.q.handed|
    ensures e.q.handed[j].job.msg.Remote? && e.q.handed[j].job.id == e.acts[a].jobs[0]
  {
    j := HandedIndex(e.q, e.acts[a].jobs[0]);
    HandedLabel(e, j);
    assert Sent(e.acts, a, 0);
    assert e.q.handed[j].job.waiter == Q.Activation(a, 0);
    OldHanded(e0, e, j);
  }

  lemma OldHanded(e0: State, e: State, j: nat)
    requires Inv(e0) && Window(e0, e) && j < |e.q.handed|
    ensures j < |e0.q.handed| && e.q.handed[j].job.waiter.Activation? ==> e.q.handed[j].job.waiter.id < |e0.acts|
  {
    if j < |e0.q.handed| { HandedLabel(e0, j); }
  }

  /** Conversely, a remote control frame handed over since e0 that reached the bus is such a
      release. */
  lemma NewRemoteReached(e0: State, e: State, ids: set<nat>, j: nat)
    requires Inv(e) && Window(e0, e) && |e0.q.handed| <= j < |e.q.handed| && RemoteReached(e.q.handed[j], ids)
    ensures ReleaseReached(e0, e, ids)
  {
    NewRemote(e0, e, j);
    assert Q.WasHanded(e.q, e.acts[e.q.handed[j].job.waiter.id].jobs[0]);
  }

  lemma WindowSpeaks(e0: State, e: State, ids: set<nat>)
    requires Inv(e0) && Inv(e) && Window(e0, e)
    ensures LastReached(e.q.handed, ids)
         == if ReleaseReached(e0, e, ids) then Some(false) else LastReached(e0.q.handed, ids)
  {
    var h := |e0.q.handed|;
    assert e.q.handed[..h] == e0.q.handed;
    hide Inv, Window, LastReached, Q.WasHanded;
    forall j | h <= j < |e.q.handed| && e.q.handed[j].job.msg.Remote? ensures !e.q.handed[j].job.msg.on {
      NewRemote(e0, e, j);
    }
    LastReachedFrom(e.q.handed, ids, h);
    if ReleaseReached(e0, e, ids) {
      var a :| |e0.acts| <= a < |e.acts| && |e.acts[a].jobs| > 0
               && e.acts[a].jobs[0] in ids && Q.WasHanded(e.q, e.acts[a].jobs[0]);
      var j := NewReleaseHanded(e0, e, a);
      assert RemoteReached(e.q.handed[j], ids);
    }
    if j :| h <= j < |e.q.handed| && RemoteReached(e.q.handed[j], ids) {
      NewRemoteReached(e0, e, ids, j);
    }
  }

  /** In a quiet state every remote control frame handed over has settled, and stays so. */
  lemma OldRemotesSettled(e0: State, q: Q.State)
    requires Inv(e0) && Settling(e0.acts, e0.q) && Quiet(e0) && Q.Inv(q)
    requires e0.q.settled <= q.settled && e0.q.submitted <= q.submitted
    ensures LastReached(e0.q.handed, Acknowledged(q)) == LastRemoteWritten(e0.q)
  {
    hide Q.Inv, Inv;
    forall j | 0 <= j < |e0.q.handed|
      ensures RemoteReached(e0.q.handed[j], Acknowledged(q)) <==> RemoteReached(e0.q.handed[j], Acknowledged(e0.q))
    {
      var job := e0.q.handed[j].job;
      HandedLabel(e0, j);
      if job.msg.Remote? {
        RemoteIsFirst(e0.acts, job);
        assert Sent(e0.acts, job.waiter.id, 0);
        Q.OutcomeStays(e0.q, q, job.id);
      }
    }
    LastReachedSame(e0.q.handed, Acknowledged(q), Acknowledged(e0.q));
  }

  // ---------- the results ----------

  /** Whatever fails, before or after, and whichever frames reach the bus: from a quiet state on,
      while control is to be handed back, the last remote control frame on the bus is the one
      handed over by then, or a release as soon as a release begun since then reaches it. */
  lemma OnlyReleasesSpeak(ctl: C.State, states: seq<State>, events: seq<Event>, s: nat, t: nat, ids: set<nat>)
    requires IsRun(ctl, states, events) && s <= t < |states| && Quiet(states[s])
    requires forall i :: s <= i <= t ==> states[i].ctl.Releasing()
    ensures LastReached(states[t].q.handed, ids)
         == if ReleaseReached(states[s], states[t], ids) then Some(false) else LastReached(states[s].q.handed, ids)
  {
    hide *;
    EveryRunInv(ctl, states, events, s);
    EveryRunInv(ctl, states, events, t);
    RunWindow(ctl, states, events, s, t);
    WindowSpeaks(states[s], states[t], ids);
  }

  /** No release begun since e0 failed or was discarded. */
  ghost predicate ReleasesGoThrough(e0: State, e: State) {
    forall a :: |e0.acts| <= a < |e.acts| && |e.acts[a].jobs| > 0 ==>
      Q.OutcomeOf(e.q.settled, e.acts[a].jobs[0]) in {None, Some(Q.Resolved)}
  }

  /** Of the sends numbered n or later, every one whose write was acknowledged reached the bus. */
  ghost predicate AcknowledgedReach(q: Q.State, n: nat, ids: set<nat>) {
    forall id: nat :: Written(q, id) && id >= n ==> id in ids
  }

  /** Exactly when off converges, in any run: from s to t the mode hands control back, nothing
      is in flight at s or at t, and the keep-alive timer calls apply() at s with the bus up.
      Before s anything may have failed, and polls may fail at any time; only the releases begun
      after s go through. Of the writes that failed any may have reached the bus all the same.
      Then the last remote control frame that reached the bus is a release if and only if
      "released" was not remembered at s, or it already was one. */
  lemma OffConvergesIff(ctl: C.State, states: seq<State>, events: seq<Event>, s: nat, t: nat, ids: set<nat>)
    requires IsRun(ctl, states, events) && s < t < |states|
    requires Quiet(states[s]) && Quiet(states[t])
    requires events[s].Timer? && states[s].ctl.busConnected
    requires forall i :: s <= i <= t ==> states[i].ctl.Releasing()
    requires ReleasesGoThrough(states[s], states[t])
    requires AcknowledgedReach(states[t].q, states[s].q.submitted, ids)
    ensures LastReached(states[t].q.handed, ids) == Some(false)
       <==> states[s].last != Released || LastReached(states[s].q.handed, ids) == Some(false)
  {
    hide *;
    Lengths(ctl, states, events);
    OnlyReleasesSpeak(ctl, states, events, s, t, ids);
    RunWindow(ctl, states, events, s, t);
    if states[s].last == Released {
      NothingNew(states[s], states[t], ids);
    } else {
      TimerBegins(ctl, states, events, s);
      ActsGrow(ctl, states, events, s + 1, t);
      EveryRunInv(ctl, states, events, t);
      EveryRunSettling(ctl, states, events, t);
      FirstNewReached(states[s], states[t], ids);
    }
  }

  /** The same of what the engine can know: the last remote control frame acknowledged. */
  lemma OffConvergesAcknowledged(ctl: C.State, states: seq<State>, events: seq<Event>, s: nat, t: nat)
    requires IsRun(ctl, states, events) && s < t < |states|
    requires Quiet(states[s]) && Quiet(states[t])
    requires events[s].Timer? && states[s].ctl.busConnected
    requires forall i :: s <= i <= t ==> states[i].ctl.Releasing()
    requires ReleasesGoThrough(states[s], states[t])
    ensures LastRemoteWritten(states[t].q) == Some(false)
       <==> states[s].last != Released || LastRemoteWritten(states[s].q) == Some(false)
  {
    hide *;
    EveryRunInv(ctl, states, events, t);
    AllAcknowledgedReach(states[t], 0);
    OffConvergesIff(ctl, states, events, s, t, Acknowledged(states[t].q)) by {
      AllAcknowledgedReach(states[t], states[s].q.submitted);
    }
    OldWordAcknowledged(ctl, states, events, s, t);
    WrittenIsReached(states[t].q);
  }

  /** What reached the bus before s, by the acknowledgements known at t. */
  lemma OldWordAcknowledged(ctl: C.State, states: seq<State>, events: seq<Event>, s: nat, t: nat)
    requires IsRun(ctl, states, events) && s <= t < |states| && Quiet(states[s])
    requires forall i :: s <= i <= t ==> states[i].ctl.Releasing()
    ensures LastReached(states[s].q.handed, Acknowledged(states[t].q)) == LastRemoteWritten(states[s].q)
  {
    hide *;
    EveryRunInv(ctl, states, events, s);
    EveryRunInv(ctl, states, events, t);
    EveryRunSettling(ctl, states, events, s);
    RunWindow(ctl, states, events, s, t);
    WindowGrows(states[s], states[t]);
    QueueInv(states[t]);
    OldRemotesSettled(states[s], states[t].q);
  }

  lemma WindowGrows(e0: State, e: State)
    requires Window(e0, e)
    ensures e0.q.settled <= e.q.settled && e0.q.submitted <= e.q.submitted
  {}

  lemma WrittenIsReached(q: Q.State)
    ensures LastRemoteWritten(q) == LastReached(q.handed, Acknowledged(q))
  {}

  lemma AllAcknowledgedReach(e: State, n: nat)
    requires Inv(e)
    ensures AcknowledgedReach(e.q, n, Acknowledged(e.q))
  {
    assert Q.Partitioned(e.q);
    hide Inv, Q.Partitioned;
    forall id: nat | Written(e.q, id) ensures id < e.q.submitted { Q.OutcomeKnown(e.q, id); }
  }

  lemma Lengths(ctl: C.State, states: seq<State>, events: seq<Event>)
    requires IsRun(ctl, states, events)
    ensures |states| == |events| + 1
  {}

  lemma NothingNew(e0: State, e: State, ids: set<nat>)
    requires Window(e0, e) && e0.last == Released
    ensures !ReleaseReached(e0, e, ids)
  {}

  lemma TimerBegins(ctl: C.State, states: seq<State>, events: seq<Event>, s: nat)
    requires IsRun(ctl, states, events) && s < |events| && events[s].Timer?
    requires states[s].ctl.busConnected && states[s].ctl.Releasing() && states[s].last != Released
    ensures |states[s + 1].acts| > |states[s].acts|
  {
    TimerStep(ctl, states, events, s);
    hide IsRun, Q.OnSend;
    assert C.OnTickOverride(states[s].ctl, events[s].at) == (states[s].ctl, false);
  }

  lemma {:induction false} ActsGrow(ctl: C.State, states: seq<State>, events: seq<Event>, s: nat, t: nat)
    requires IsRun(ctl, states, events) && s <= t < |states|
    ensures |states[s].acts| <= |states[t].acts|
    decreases t - s
  {
    if s < t {
      ActsGrow(ctl, states, events, s, t - 1);
      var e, ev := states[t - 1], events[t - 1];
      assert Enabled(e, ev) && states[t] == Step(e, ev);
      hide IsRun, Enabled, Step;
      StepActsGrow(e, ev);
    }
  }

  lemma StepActsGrow(e: State, ev: Event)
    requires Enabled(e, ev)
    ensures |e.acts| <= |Step(e, ev).acts|
  {
    hide OnApply, OnControl, Q.OnSend, Q.OnGapOver;
    if !ev.Resume? { EventExtends(e, ev); }
  }

  /** With nothing in flight the first release begun since e0 has settled, so it was acknowledged
      and reached the bus. */
  lemma FirstNewReached(e0: State, e: State, ids: set<nat>)
    requires Inv(e) && Settling(e.acts, e.q) && Quiet(e) && Window(e0, e) && |e0.acts| < |e.acts|
    requires ReleasesGoThrough(e0, e) && AcknowledgedReach(e.q, e0.q.submitted, ids)
    ensures ReleaseReached(e0, e, ids)
  {
    var a := |e0.acts|;
    assert |e.acts[a].jobs| > 0 && e.acts[a].jobs[0] >= e0.q.submitted && Q.WritesBegun(e.q);
    hide Inv, Window;
    assert Sent(e.acts, a, 0);
    assert Written(e.q, e.acts[a].jobs[0]);
    Q.ResolvedHanded(e.q, e.acts[a].jobs[0]);
  }

  /** Off converges when every send resolves, from the first on: then what was remembered is
      true, and one more apply() with nothing in flight is enough. */
  lemma OffConverges(ctl: C.State, states: seq<State>, events: seq<Event>, s: nat, t: nat, ids: set<nat>)
    requires IsRun(ctl, states, events) && s < t < |states|
    requires NoFaults(states[t].q) && AcknowledgedReach(states[t].q, 0, ids)
    requires Quiet(states[s]) && events[s].Timer? && states[s].ctl.busConnected
    requires forall i :: s <= i <= t ==> states[i].ctl.Releasing()
    requires Quiet(states[t])
    ensures LastRemote(states[t].q.handed) == Some(false) && LastRemoteWritten(states[t].q) == Some(false)
    ensures LastReached(states[t].q.handed, ids) == Some(false)
  {
    hide *;
    Lengths(ctl, states, events);
    EveryFaultFreeRun(ctl, states, events, s, t);
    EveryFaultFreeRun(ctl, states, events, t, t);
    TimerStep(ctl, states, events, s);
    FirstApplyReleases(states[s], events[s].at);
    StaysReleasing(ctl, states, events, s + 1, t);
    NewestIsRelease(states[t]);
    EveryRunSettling(ctl, states, events, t);
    QuietAllReached(states[t], ids);
    EveryRunInv(ctl, states, events, t);
    AllAcknowledgedReach(states[t], 0);
    QuietAllReached(states[t], Acknowledged(states[t].q));
    WrittenIsReached(states[t].q);
  }

  /** With nothing in flight and no fault, what was handed over last reached the bus last. */
  lemma QuietAllReached(e: State, ids: set<nat>)
    requires OffInv(e) && NoFaults(e.q) && Settling(e.acts, e.q) && Quiet(e) && AcknowledgedReach(e.q, 0, ids)
    ensures LastReached(e.q.handed, ids) == LastRemote(e.q.handed)
  {
    hide Inv;
    forall j | 0 <= j < |e.q.handed| && e.q.handed[j].job.msg.Remote? ensures e.q.handed[j].job.id in ids {
      HandedLabel(e, j);
      RemoteIsFirst(e.acts, e.q.handed[j].job);
      OutcomeAmong(e.q.settled, e.q.handed[j].job.id);
      assert Written(e.q, e.q.handed[j].job.id);
    }
    LastIsReached(e.q.handed, ids);
  }

  lemma {:induction false} LastIsReached(handed: seq<Q.Handed>, ids: set<nat>)
    requires forall j :: 0 <= j < |handed| && handed[j].job.msg.Remote? ==> handed[j].job.id in ids
    ensures LastReached(handed, ids) == LastRemote(handed)
    decreases |handed|
  {
    if handed != [] { LastIsReached(handed[..|handed| - 1], ids); }
  }

  /** Once "released" is remembered with nothing in flight, and as long as the mode hands control
      back, apply() begins nothing: whatever reaches the bridge is a status poll. */
  lemma ReleasedStaysSilent(ctl: C.State, states: seq<State>, events: seq<Event>, s: nat, t: nat)
    requires IsRun(ctl, states, events) && s <= t < |states|
    requires Quiet(states[s]) && states[s].last == Released
    requires forall i :: s <= i <= t ==> states[i].ctl.Releasing()
    ensures states[t].last == Released && states[t].acts == states[s].acts
    ensures states[s].q.handed <= states[t].q.handed
    ensures forall j :: |states[s].q.handed| <= j < |states[t].q.handed| ==> states[t].q.handed[j].job.msg == Status
    ensures forall ids :: LastReached(states[t].q.handed, ids) == LastReached(states[s].q.handed, ids)
    ensures LastRemoteWritten(states[t].q) == LastRemoteWritten(states[s].q)
  {
    hide IsRun, Inv, Quiet, LastReached, Acknowledged;
    RunWindow(ctl, states, events, s, t);
    EveryRunInv(ctl, states, events, t);
    forall ids ensures LastReached(states[t].q.handed, ids) == LastReached(states[s].q.handed, ids) {
      OnlyReleasesSpeak(ctl, states, events, s, t, ids);
      NothingNew(states[s], states[t], ids);
    }
    OldWordAcknowledged(ctl, states, events, s, t);
    forall j | |states[s].q.handed| <= j < |states[t].q.handed| ensures states[t].q.handed[j].job.msg == Status {
      HandedLabel(states[t], j);
      assert Later(states[t].q.handed[j].job, |states[s].acts|);
    }
  }
}
