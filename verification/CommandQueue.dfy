/** The bus command queue: first in, first out, one write at a time, and lossy on purpose:
    it discards the oldest job on overflow and any job that waited more than two seconds. */
module CommandQueue {
  import opened Messages
  import opened Options

  const MAX_JOB_AGE_MS := 2_000
  const MAX_QUEUE_DEPTH := 64

  /** Who awaits a job's promise: nobody in particular, or the stage-th send of an engine
      activation. */
  datatype Waiter = Nobody | Activation(id: nat, stage: nat)

  /** id numbers the sends; it stands for the promise that send() returned. */
  datatype Job = Job(id: nat, msg: Msg, waiter: Waiter, queuedAt: int)

  datatype Outcome = Resolved | WriteFailed | Discarded

  /** One settled promise. */
  datatype Settled = Settled(id: nat, outcome: Outcome)

  /** One call of bridge.write: which job, and when. */
  datatype Handed = Handed(job: Job, at: int)

  /** Where the drain loop is suspended: not running, awaiting a write, or sleeping. */
  datatype Drain = Idle | Writing(job: Job) | Gap

  /** The queue's own variables, then history: sends so far, writes begun, promises settled. */
  datatype State = State(queue: seq<Job>, drain: Drain, dropped: nat,
                         submitted: nat, handed: seq<Handed>, settled: seq<Settled>)

  const INITIAL := State([], Idle, 0, 0, [], [])

  function Discard(q: State, job: Job): State {
    q.(dropped := q.dropped + 1, settled := q.settled + [Settled(job.id, Discarded)])
  }

  /** The drain loop from its head to its next await, or to its end. */
  function Pump(q: State, now: int): State
    decreases |q.queue|
  {
    if q.queue == [] then q.(drain := Idle)
    else
      var job, rest := q.queue[0], q.(queue := q.queue[1..]);
      if now - job.queuedAt > MAX_JOB_AGE_MS then Pump(Discard(rest, job), now)
      else rest.(drain := Writing(job), handed := q.handed + [Handed(job, now)])
  }

  function MakeRoom(q: State): State {
    if |q.queue| >= MAX_QUEUE_DEPTH then Discard(q.(queue := q.queue[1..]), q.queue[0]) else q
  }

  function OnSend(q: State, msg: Msg, waiter: Waiter, now: int): State {
    var q1 := MakeRoom(q);
    var q2 := q1.(queue := q1.queue + [Job(q.submitted, msg, waiter, now)], submitted := q.submitted + 1);
    if q2.drain.Idle? then Pump(q2, now) else q2
  }

  /** The awaited write resolves or rejects. */
  function OnWriteDone(q: State, ok: bool): State
    requires q.drain.Writing?
  {
    q.(drain := Gap, settled := q.settled + [Settled(q.drain.job.id, if ok then Resolved else WriteFailed)])
  }

  function OnGapOver(q: State, now: int): State { Pump(q, now) }

  // ---------- the class ----------

  class CommandQueue {
    var queue: seq<Job>
    var draining: bool
    var droppedCount: nat
    /** The suspended drain loop's local: the job whose write it awaits. */
    var awaiting: Drain
    /** Numbers the promises send() hands out. */
    var submitted: nat
    ghost var handed: seq<Handed>
    ghost var settled: seq<Settled>

    ghost predicate Valid()
      reads this
    {
      draining <==> !awaiting.Idle?
    }

    ghost function Abs(): State
      reads this
    {
      State(queue, awaiting, droppedCount, submitted, handed, settled)
    }

    constructor ()
      ensures Valid() && Abs() == INITIAL
    {
      queue, draining, droppedCount, awaiting := [], false, 0, Idle;
      submitted, handed, settled := 0, [], [];
    }

    method Send(msg: Msg, waiter: Waiter, now: int) returns (id: nat)
      requires Valid()
      modifies this
      ensures Valid() && id == old(submitted) && Abs() == OnSend(old(Abs()), msg, waiter, now)
    {
      if |queue| >= MAX_QUEUE_DEPTH {
        var oldest := queue[0];
        queue := queue[1..];
        droppedCount := droppedCount + 1;
        settled := settled + [Settled(oldest.id, Discarded)];
      }
      id := submitted;
      queue := queue + [Job(id, msg, waiter, now)];
      submitted := submitted + 1;
      if draining { return; }
      draining := true;
      DrainLoop(now);
    }

    /** The body of drain() between two suspensions. */
    method DrainLoop(now: int)
      requires draining
      modifies this
      ensures Valid() && Abs() == Pump(old(Abs()), now)
    {
      ghost var start := Abs();
      while |queue| > 0
        invariant draining && Pump(Abs(), now) == Pump(start, now)
        decreases |queue|
      {
        var job := queue[0];
        queue := queue[1..];
        if now - job.queuedAt > MAX_JOB_AGE_MS {
          droppedCount := droppedCount + 1;
          settled := settled + [Settled(job.id, Discarded)];
          continue;
        }
        awaiting := Writing(job); // await bridge.write(job.bytes)
        handed := handed + [Handed(job, now)];
        return;
      }
      awaiting := Idle;
      draining := false;
    }

    method WriteDone(ok: bool)
      requires Valid() && awaiting.Writing?
      modifies this
      ensures Valid() && Abs() == OnWriteDone(old(Abs()), ok)
    {
      settled := settled + [Settled(awaiting.job.id, if ok then Resolved else WriteFailed)];
      awaiting := Gap; // await sleep(INTER_COMMAND_GAP_MS)
    }

    method GapOver(now: int)
      requires Valid() && awaiting.Gap?
      modifies this
      ensures Valid() && Abs() == OnGapOver(old(Abs()), now)
    {
      DrainLoop(now);
    }
  }

  // ---------- invariants of every step ----------

  /** How promise id settled, if it has. */
  function OutcomeOf(ss: seq<Settled>, id: nat): Option<Outcome> {
    if ss == [] then None
    else if ss[|ss| - 1].id == id then Some(ss[|ss| - 1].outcome)
    else OutcomeOf(ss[..|ss| - 1], id)
  }

  function JobIds(jobs: seq<Job>): (r: seq<nat>)
    ensures |r| == |jobs| && forall i :: 0 <= i < |jobs| ==> r[i] == jobs[i].id
  {
    seq(|jobs|, i requires 0 <= i < |jobs| => jobs[i].id)
  }

  function SettledIds(ss: seq<Settled>): (r: seq<nat>)
    ensures |r| == |ss| && forall i :: 0 <= i < |ss| ==> r[i] == ss[i].id
  {
    seq(|ss|, i requires 0 <= i < |ss| => ss[i].id)
  }

  function InFlight(q: State): seq<nat> { if q.drain.Writing? then [q.drain.job.id] else [] }

  function UpTo(n: nat): (r: seq<nat>)
    ensures |r| == n && forall i :: 0 <= i < n ==> r[i] == i
  {
    seq(n, i => i)
  }

  function Count(ss: seq<Settled>, o: Outcome): nat {
    if ss == [] then 0
    else Count(ss[..|ss| - 1], o) + (if ss[|ss| - 1].outcome == o then 1 else 0)
  }

  /** The last job handed to the bridge, as a high-water mark. */
  function HighWater(q: State): int {
    if q.handed == [] then -1 else q.handed[|q.handed| - 1].job.id
  }

  /** Every send is in exactly one place: settled, in flight, or waiting. */
  ghost predicate Partitioned(q: State) {
    multiset(SettledIds(q.settled)) + multiset(InFlight(q)) + multiset(JobIds(q.queue)) == multiset(UpTo(q.submitted))
  }

  /** Jobs wait, and are written, in the order they were sent. */
  ghost predicate Ordered(q: State) {
    && (forall i, j :: 0 <= i < j < |q.queue| ==> q.queue[i].id < q.queue[j].id)
    && (forall i, j :: 0 <= i < j < |q.handed| ==> q.handed[i].job.id < q.handed[j].job.id)
    && (forall i :: 0 <= i < |q.queue| ==> HighWater(q) < q.queue[i].id < q.submitted)
    && HighWater(q) < q.submitted
    && (q.drain.Writing? ==> |q.handed| > 0 && q.drain.job == q.handed[|q.handed| - 1].job)
  }

  ghost predicate Fresh(q: State) {
    forall i :: 0 <= i < |q.handed| ==> q.handed[i].at - q.handed[i].job.queuedAt <= 2_000
  }

  /** Writes never overlap: all begun but the one in flight have ended. */
  ghost predicate Serial(q: State) {
    |q.handed| == Count(q.settled, Resolved) + Count(q.settled, WriteFailed) + |InFlight(q)|
  }

  /** Depth is bounded, a waiting job means the loop is running, and dropped counts drops. */
  ghost predicate Bounded(q: State) {
    && |q.queue| <= 64
    && (q.queue != [] ==> !q.drain.Idle?)
    && q.dropped == Count(q.settled, Discarded)
  }

  /** Only a job that was handed to the bridge settles as written or failed. */
  ghost predicate WritesBegun(q: State) {
    forall i :: 0 <= i < |q.settled| && q.settled[i].outcome != Discarded ==> WasHanded(q, q.settled[i].id)
  }

  ghost predicate Inv(q: State) {
    Partitioned(q) && Ordered(q) && Fresh(q) && Serial(q) && Bounded(q) && WritesBegun(q)
  }

  /** Discards and further hand-overs keep it. */
  lemma BegunGrows(q: State, q': State)
    requires WritesBegun(q) && q.settled <= q'.settled && q.handed <= q'.handed
    requires forall i :: |q.settled| <= i < |q'.settled| ==> q'.settled[i].outcome == Discarded
    ensures WritesBegun(q')
  {
    forall i | 0 <= i < |q'.settled| && q'.settled[i].outcome != Discarded ensures WasHanded(q', q'.settled[i].id) {
      HandedStays(q, q', q.settled[i].id);
    }
  }

  /** Settling the first waiting job moves its id from the queue to the settled ones. */
  lemma MoveFirst(queue: seq<Job>, settled: seq<Settled>, o: Outcome)
    requires queue != []
    ensures var settled' := settled + [Settled(queue[0].id, o)];
            && multiset(SettledIds(settled')) == multiset(SettledIds(settled)) + multiset{queue[0].id}
            && multiset(JobIds(queue)) == multiset{queue[0].id} + multiset(JobIds(queue[1..]))
  {
    assert SettledIds(settled + [Settled(queue[0].id, o)]) == SettledIds(settled) + [queue[0].id];
    assert JobIds(queue) == [queue[0].id] + JobIds(queue[1..]);
  }

  lemma CountSnoc(ss: seq<Settled>, x: Settled, o: Outcome)
    ensures Count(ss + [x], o) == Count(ss, o) + (if x.outcome == o then 1 else 0)
  {
    assert (ss + [x])[..|ss|] == ss;
  }

  lemma DiscardPartitioned(q: State, q': State)
    requires q.queue != [] && q' == Discard(q.(queue := q.queue[1..]), q.queue[0]) && Partitioned(q)
    ensures Partitioned(q')
  {
    MoveFirst(q.queue, q.settled, Discarded);
    hide SettledIds, JobIds, UpTo;
  }

  lemma DiscardOrdered(q: State, q': State)
    requires q.queue != [] && q' == Discard(q.(queue := q.queue[1..]), q.queue[0]) && Ordered(q)
    ensures Ordered(q')
  {}

  lemma DiscardKeeps(q: State, q': State)
    requires q.queue != [] && q' == Discard(q.(queue := q.queue[1..]), q.queue[0])
    ensures Partitioned(q) ==> Partitioned(q')
    ensures Ordered(q) ==> Ordered(q')
    ensures Fresh(q) ==> Fresh(q')
    ensures Serial(q) ==> Serial(q')
    ensures WritesBegun(q) ==> WritesBegun(q')
    ensures q'.dropped - Count(q'.settled, Discarded) == q.dropped - Count(q.settled, Discarded)
  {
    hide Partitioned, Ordered, Count, WritesBegun;
    if WritesBegun(q) { BegunGrows(q, q'); }
    if Partitioned(q) { DiscardPartitioned(q, q'); }
    if Ordered(q) { DiscardOrdered(q, q'); }
    var x := Settled(q.queue[0].id, Discarded);
    CountSnoc(q.settled, x, Discarded);
    CountSnoc(q.settled, x, Resolved);
    CountSnoc(q.settled, x, WriteFailed);
  }

  /** The queue after its first job went to the bridge. */
  function HandOff(q: State, now: int): State
    requires q.queue != []
  {
    q.(queue := q.queue[1..], drain := Writing(q.queue[0]), handed := q.handed + [Handed(q.queue[0], now)])
  }

  lemma HandOffPartitioned(q: State, now: int)
    requires q.queue != [] && !q.drain.Writing? && Partitioned(q)
    ensures Partitioned(HandOff(q, now))
  {
    MoveFirst(q.queue, q.settled, Discarded);
    hide SettledIds, JobIds, UpTo;
  }

  lemma HandOffOrdered(q: State, now: int)
    requires q.queue != [] && !q.drain.Writing? && Ordered(q)
    ensures Ordered(HandOff(q, now))
  {
    var q' := HandOff(q, now);
    forall i, j | 0 <= i < j < |q'.handed| ensures q'.handed[i].job.id < q'.handed[j].job.id {
      if j == |q.handed| { assert q.handed[i].job.id <= HighWater(q); }
    }
  }

  lemma IdleKeeps(q: State)
    requires !q.drain.Writing?
    ensures Partitioned(q) ==> Partitioned(q.(drain := Idle))
    ensures Ordered(q) ==> Ordered(q.(drain := Idle))
  {}

  /** The drain loop keeps every invariant, and ends writing or with nothing left to do. */
  lemma {:induction false} PumpKeeps(q: State, now: int)
    requires !q.drain.Writing?
    requires Partitioned(q) && Ordered(q) && Fresh(q) && Serial(q) && WritesBegun(q)
    requires |q.queue| <= 64 && q.dropped == Count(q.settled, Discarded)
    ensures Inv(Pump(q, now))
    ensures Pump(q, now).submitted == q.submitted && q.handed <= Pump(q, now).handed
    decreases |q.queue|
  {
    hide Partitioned, Ordered, Count, WritesBegun;
    if q.queue == [] {
      IdleKeeps(q);
      BegunGrows(q, q.(drain := Idle));
    } else {
      var job, rest := q.queue[0], q.(queue := q.queue[1..]);
      if now - job.queuedAt > 2_000 {
        var q' := Discard(rest, job);
        DiscardKeeps(q, q');
        hide Fresh;
        PumpKeeps(q', now);
      } else {
        HandOffPartitioned(q, now);
        HandOffOrdered(q, now);
        BegunGrows(q, HandOff(q, now));
        assert Pump(q, now) == HandOff(q, now);
      }
    }
  }

  function Push(q: State, job: Job): State { q.(queue := q.queue + [job], submitted := q.submitted + 1) }

  lemma PushPartitioned(q: State, job: Job)
    requires job.id == q.submitted && Partitioned(q)
    ensures Partitioned(Push(q, job))
  {
    assert JobIds(q.queue + [job]) == JobIds(q.queue) + [job.id];
    assert UpTo(q.submitted + 1) == UpTo(q.submitted) + [job.id];
    hide SettledIds, JobIds, UpTo;
  }

  lemma PushOrdered(q: State, job: Job)
    requires job.id == q.submitted && Ordered(q)
    ensures Ordered(Push(q, job))
  {}

  lemma PushSerial(q: State, job: Job)
    ensures Serial(q) ==> Serial(Push(q, job))
    ensures Fresh(q) ==> Fresh(Push(q, job))
    ensures WritesBegun(q) ==> WritesBegun(Push(q, job))
  {
    if WritesBegun(q) { BegunGrows(q, Push(q, job)); }
  }

  lemma SendKeeps(q: State, msg: Msg, waiter: Waiter, now: int)
    requires Inv(q)
    ensures Inv(OnSend(q, msg, waiter, now))
    ensures OnSend(q, msg, waiter, now).submitted == q.submitted + 1
    ensures q.handed <= OnSend(q, msg, waiter, now).handed
  {
    hide Partitioned, Ordered, Count, Fresh, Pump, Serial, WritesBegun;
    var q1 := MakeRoom(q);
    if |q.queue| >= 64 { DiscardKeeps(q, q1); }
    var job := Job(q.submitted, msg, waiter, now);
    var q2 := Push(q1, job);
    PushPartitioned(q1, job);
    PushOrdered(q1, job);
    PushSerial(q1, job);
    if q2.drain.Idle? { PumpKeeps(q2, now); }
  }

  lemma WriteDonePartitioned(q: State, x: Settled)
    requires Partitioned(q) && q.drain.Writing? && x.id == q.drain.job.id
    ensures Partitioned(q.(drain := Gap, settled := q.settled + [x]))
  {
    assert SettledIds(q.settled + [x]) == SettledIds(q.settled) + [x.id];
    hide SettledIds, JobIds, UpTo;
  }

  lemma WriteDoneBegun(q: State, x: Settled)
    requires Ordered(q) && WritesBegun(q) && q.drain.Writing? && x.id == q.drain.job.id
    ensures WritesBegun(q.(drain := Gap, settled := q.settled + [x]))
  {
    var q' := q.(drain := Gap, settled := q.settled + [x]);
    assert q'.handed[|q.handed| - 1].job.id == x.id;
    forall i | 0 <= i < |q.settled| && q.settled[i].outcome != Discarded ensures WasHanded(q', q.settled[i].id) {
      HandedStays(q, q', q.settled[i].id);
    }
  }

  lemma WriteDoneKeeps(q: State, ok: bool)
    requires Inv(q) && q.drain.Writing?
    ensures Inv(OnWriteDone(q, ok))
  {
    hide Partitioned, Count;
    var x := Settled(q.drain.job.id, if ok then Resolved else WriteFailed);
    WriteDonePartitioned(q, x);
    WriteDoneBegun(q, x);
    CountSnoc(q.settled, x, Discarded);
    CountSnoc(q.settled, x, Resolved);
    CountSnoc(q.settled, x, WriteFailed);
  }

  // ---------- runs of the queue alone ----------

  datatype Event = Send(at: int, msg: Msg, waiter: Waiter) | WriteDone(at: int, ok: bool) | GapOver(at: int)

  predicate Enabled(q: State, e: Event) {
    match e
    case Send(_, _, _) => true
    case WriteDone(_, _) => q.drain.Writing?
    case GapOver(_) => q.drain.Gap?
  }

  function Step(q: State, e: Event): State
    requires Enabled(q, e)
  {
    match e
    case Send(at, msg, waiter) => OnSend(q, msg, waiter, at)
    case WriteDone(_, ok) => OnWriteDone(q, ok)
    case GapOver(at) => OnGapOver(q, at)
  }

  /** A run: the states passed through, from the initial one. */
  ghost predicate IsRun(qs: seq<State>, es: seq<Event>) {
    && |qs| == |es| + 1 && qs[0] == INITIAL
    && forall i :: 0 <= i < |es| ==> Enabled(qs[i], es[i]) && qs[i + 1] == Step(qs[i], es[i])
  }

  lemma {:induction false} EveryRunInv(qs: seq<State>, es: seq<Event>, i: nat)
    requires IsRun(qs, es) && i < |qs|
    ensures Inv(qs[i])
  {
    if i == 0 {
      assert SettledIds([]) == [] && JobIds([]) == [] && UpTo(0) == [];
    } else {
      EveryRunInv(qs, es, i - 1);
      var q, e := qs[i - 1], es[i - 1];
      assert Enabled(q, e) && qs[i] == Step(q, e);
      hide Inv;
      match e {
        case Send(at, msg, waiter) => SendKeeps(q, msg, waiter, at);
        case WriteDone(_, ok) => WriteDoneKeeps(q, ok);
        case GapOver(at) => GapKeeps(q, at);
      }
    }
  }

  lemma GapKeeps(q: State, now: int)
    requires Inv(q) && q.drain.Gap?
    ensures Inv(OnGapOver(q, now))
    ensures OnGapOver(q, now).submitted == q.submitted && q.handed <= OnGapOver(q, now).handed
  {
    PumpKeeps(q, now);
  }

  lemma {:induction false} CountsAll(ss: seq<Settled>)
    ensures |ss| == Count(ss, Resolved) + Count(ss, WriteFailed) + Count(ss, Discarded)
    decreases |ss|
  {
    if ss != [] { CountsAll(ss[..|ss| - 1]); }
  }

  lemma {:induction false} OneOfEach(n: nat, x: nat)
    ensures multiset(UpTo(n))[x] == if x < n then 1 else 0
  {
    if n > 0 {
      OneOfEach(n - 1, x);
      assert UpTo(n) == UpTo(n - 1) + [n - 1];
    } else {
      assert UpTo(0) == [];
    }
  }

  lemma TwiceCounts(xs: seq<nat>, i: nat, j: nat)
    requires i < j < |xs| && xs[i] == xs[j]
    ensures multiset(xs)[xs[i]] >= 2
  {
    assert xs == xs[..j] + xs[j..];
    assert xs[i] in xs[..j] && xs[j] in xs[j..];
    assert multiset(xs) == multiset(xs[..j]) + multiset(xs[j..]);
  }

  /** Conservation: every send is accounted for exactly once, no promise settles twice, and a
      job that overflow discards is the oldest one waiting. */
  lemma Conservation(q: State)
    requires Inv(q)
    ensures q.submitted == Count(q.settled, Resolved) + Count(q.settled, WriteFailed) + q.dropped
                           + |q.queue| + |InFlight(q)|
    ensures forall i, j :: 0 <= i < j < |q.settled| ==> q.settled[i].id != q.settled[j].id
    ensures |q.queue| >= 64 ==>
              && MakeRoom(q).settled == q.settled + [Settled(q.queue[0].id, Discarded)]
              && forall i :: 0 <= i < |q.queue| ==> q.queue[0].id <= q.queue[i].id
  {
    CountsAll(q.settled);
    var all := multiset(SettledIds(q.settled)) + multiset(InFlight(q)) + multiset(JobIds(q.queue));
    assert |all| == |q.settled| + |InFlight(q)| + |q.queue|;
    assert |multiset(UpTo(q.submitted))| == q.submitted;
    forall i, j | 0 <= i < j < |q.settled| ensures q.settled[i].id != q.settled[j].id {
      if q.settled[i].id == q.settled[j].id {
        TwiceCounts(SettledIds(q.settled), i, j);
        OneOfEach(q.submitted, q.settled[i].id);
      }
    }
  }

  /** What a run never undoes: settlements and writes begun are only ever added to. */
  lemma HistoryGrows(q: State, e: Event)
    requires Inv(q) && Enabled(q, e)
    ensures q.settled <= Step(q, e).settled && q.handed <= Step(q, e).handed
  {
    match e {
      case Send(at, msg, waiter) => SendSubmits(q, msg, waiter, at);
      case WriteDone(_, ok) =>
      case GapOver(at) => PumpGrows(q, at);
    }
  }

  lemma {:induction false} PumpGrows(q: State, now: int)
    ensures q.settled <= Pump(q, now).settled && q.handed <= Pump(q, now).handed
    ensures Pump(q, now).submitted == q.submitted
    decreases |q.queue|
  {
    if q.queue != [] && now - q.queue[0].queuedAt > 2_000 {
      PumpGrows(Discard(q.(queue := q.queue[1..]), q.queue[0]), now);
    }
  }

  // ---------- what a step can do to a given job ----------

  ghost predicate WasHanded(q: State, id: nat) {
    exists i :: 0 <= i < |q.handed| && q.handed[i].job.id == id
  }

  /** A job the queue holds or has handed to the bridge. */
  ghost predicate InLine(q: State, job: Job) {
    job in q.queue || exists i :: 0 <= i < |q.handed| && q.handed[i].job == job
  }

  lemma OutcomeSnoc(ss: seq<Settled>, x: Settled, id: nat)
    ensures OutcomeOf(ss + [x], id) == if x.id == id then Some(x.outcome) else OutcomeOf(ss, id)
  {
    assert (ss + [x])[..|ss|] == ss;
  }

  lemma HandedStays(q: State, q': State, id: nat)
    requires q.handed <= q'.handed && WasHanded(q, id)
    ensures WasHanded(q', id)
  {
    var i :| 0 <= i < |q.handed| && q.handed[i].job.id == id;
    assert q'.handed[i] == q.handed[i];
  }

  /** The drain loop resolves nothing, and lines up nothing new. */
  lemma {:induction false} PumpOnlyDiscards(q: State, now: int, id: nat, job: Job)
    ensures OutcomeOf(Pump(q, now).settled, id) == Some(Resolved) ==> OutcomeOf(q.settled, id) == Some(Resolved)
    ensures InLine(Pump(q, now), job) ==> InLine(q, job)
    decreases |q.queue|
  {
    if q.queue != [] {
      var first, rest := q.queue[0], q.(queue := q.queue[1..]);
      if now - first.queuedAt > 2_000 {
        PumpOnlyDiscards(Discard(rest, first), now, id, job);
        OutcomeSnoc(q.settled, Settled(first.id, Discarded), id);
      } else {
        assert first in q.queue;
      }
    }
  }

  lemma SendOnlyDiscards(q: State, msg: Msg, waiter: Waiter, now: int, id: nat, job: Job)
    ensures OutcomeOf(OnSend(q, msg, waiter, now).settled, id) == Some(Resolved) ==>
              OutcomeOf(q.settled, id) == Some(Resolved)
    ensures InLine(OnSend(q, msg, waiter, now), job) ==> InLine(q, job) || job == Job(q.submitted, msg, waiter, now)
    ensures !q.drain.Idle? ==>
              OnSend(q, msg, waiter, now).drain == q.drain && OnSend(q, msg, waiter, now).handed == q.handed
  {
    var q1 := MakeRoom(q);
    var q2 := Push(q1, Job(q.submitted, msg, waiter, now));
    if |q.queue| >= 64 { OutcomeSnoc(q.settled, Settled(q.queue[0].id, Discarded), id); }
    PumpOnlyDiscards(q2, now, id, job);
  }

  lemma SendSubmits(q: State, msg: Msg, waiter: Waiter, now: int)
    ensures OnSend(q, msg, waiter, now).submitted == q.submitted + 1
    ensures q.handed <= OnSend(q, msg, waiter, now).handed
    ensures q.settled <= OnSend(q, msg, waiter, now).settled
  {
    PumpGrows(Push(MakeRoom(q), Job(q.submitted, msg, waiter, now)), now);
  }

  lemma {:induction false} OutcomeKnown(q: State, id: nat)
    requires Partitioned(q) && OutcomeOf(q.settled, id).Some?
    ensures id < q.submitted
  {
    OutcomeListed(q.settled, id);
    assert id in multiset(SettledIds(q.settled));
    OneOfEach(q.submitted, id);
  }

  lemma {:induction false} OutcomeListed(ss: seq<Settled>, id: nat)
    requires OutcomeOf(ss, id).Some?
    ensures id in SettledIds(ss)
    decreases |ss|
  {
    var n := |ss| - 1;
    if ss[n].id == id {
      assert SettledIds(ss)[n] == id;
    } else {
      OutcomeListed(ss[..n], id);
      assert SettledIds(ss)[..n] == SettledIds(ss[..n]);
    }
  }

  // ---------- what is discarded, and what is written ----------

  predicate Stale(job: Job, now: int) { now - job.queuedAt > 2_000 }

  function Discards(jobs: seq<Job>): (r: seq<Settled>)
    ensures |r| == |jobs| && forall i :: 0 <= i < |jobs| ==> r[i] == Settled(jobs[i].id, Discarded)
  {
    seq(|jobs|, i requires 0 <= i < |jobs| => Settled(jobs[i].id, Discarded))
  }

  /** The drain loop, said with an index: the stale jobs in front are discarded in order, and
      the first job that is not stale is the one written; without one the loop ends. */
  lemma {:induction false} PumpMeans(q: State, now: int) returns (k: nat)
    ensures k <= |q.queue| && (forall i :: 0 <= i < k ==> Stale(q.queue[i], now))
    ensures k < |q.queue| ==> !Stale(q.queue[k], now)
    ensures var q' := Pump(q, now);
            && q'.submitted == q.submitted && q'.dropped == q.dropped + k
            && q'.settled == q.settled + Discards(q.queue[..k])
            && (k < |q.queue| ==> q'.drain == Writing(q.queue[k]) && q'.queue == q.queue[k + 1..]
                                  && q'.handed == q.handed + [Handed(q.queue[k], now)])
            && (k == |q.queue| ==> q'.drain == Idle && q'.queue == [] && q'.handed == q.handed)
    decreases |q.queue|
  {
    k := 0;
    assert q.settled + Discards(q.queue[..0]) == q.settled;
    if q.queue != [] && Stale(q.queue[0], now) {
      var rest := Discard(q.(queue := q.queue[1..]), q.queue[0]);
      var n := PumpMeans(rest, now);
      k := n + 1;
      assert q.queue[..k] == [q.queue[0]] + rest.queue[..n];
      assert rest.settled + Discards(rest.queue[..n]) == q.settled + Discards(q.queue[..k]);
    }
  }

  /** What a send settles: the oldest job of a full queue, and nothing else. */
  lemma SendSettles(q: State, msg: Msg, waiter: Waiter, now: int)
    requires Bounded(q)
    ensures OnSend(q, msg, waiter, now).settled
         == if |q.queue| == 64 then q.settled + [Settled(q.queue[0].id, Discarded)] else q.settled
  {
    if q.drain.Idle? {
      var job := Job(q.submitted, msg, waiter, now);
      assert [] + [job] == [job] && [job][0] == job;
    }
  }

  /** And where it puts the job: straight to the bridge if the loop was idle, else behind all that
      wait, but for the oldest of a full queue. */
  lemma SendMeans(q: State, msg: Msg, waiter: Waiter, now: int)
    requires Bounded(q)
    ensures var q', job := OnSend(q, msg, waiter, now), Job(q.submitted, msg, waiter, now);
            && q'.submitted == q.submitted + 1
            && (q.drain.Idle? ==>
                  q'.drain == Writing(job) && q'.queue == [] && q'.handed == q.handed + [Handed(job, now)])
            && (!q.drain.Idle? ==>
                  && q'.drain == q.drain && q'.handed == q.handed
                  && q'.queue == (if |q.queue| == 64 then q.queue[1..] else q.queue) + [job])
  {
    if q.drain.Idle? {
      var job := Job(q.submitted, msg, waiter, now);
      assert [] + [job] == [job] && [job][0] == job && [job][1..] == [];
    }
  }

  /** A promise resolves when its write does, and rejects when its write rejects. */
  lemma WriteDoneReports(q: State, ok: bool)
    requires q.drain.Writing?
    ensures OutcomeOf(OnWriteDone(q, ok).settled, q.drain.job.id) == Some(if ok then Resolved else WriteFailed)
    ensures OnWriteDone(q, ok).queue == q.queue && OnWriteDone(q, ok).handed == q.handed
  {
    OutcomeSnoc(q.settled, Settled(q.drain.job.id, if ok then Resolved else WriteFailed), q.drain.job.id);
  }

  /** Nothing is discarded without cause: a job that overflow discards was the oldest of a full
      queue when another was sent, and a job that the loop discards had waited more than two
      seconds. */
  lemma DiscardedForCause(q: State, e: Event, i: nat) returns (job: Job)
    requires Inv(q) && Enabled(q, e)
    requires |q.settled| <= i < |Step(q, e).settled| && Step(q, e).settled[i].outcome == Discarded
    ensures Step(q, e).settled[i].id == job.id && job in q.queue
    ensures if e.Send? then |q.queue| == 64 && job == q.queue[0] else Stale(job, e.at)
  {
    hide Pump, Partitioned, Ordered, Serial, Fresh;
    match e {
      case Send(at, msg, waiter) =>
        SendSettles(q, msg, waiter, at);
        job := q.queue[0];
      case WriteDone(_, _) =>
        assert false;
      case GapOver(at) =>
        var k := PumpMeans(q, at);
        job := q.queue[i - |q.settled|];
    }
  }

  lemma {:induction false} OutcomeLasts(ss: seq<Settled>, more: seq<Settled>, id: nat)
    requires forall i :: 0 <= i < |more| ==> more[i].id != id
    ensures OutcomeOf(ss + more, id) == OutcomeOf(ss, id)
    decreases |more|
  {
    if more == [] {
      assert ss + more == ss;
    } else {
      var n := |more| - 1;
      OutcomeLasts(ss, more[..n], id);
      OutcomeSnoc(ss + more[..n], more[n], id);
      assert ss + more == (ss + more[..n]) + [more[n]];
    }
  }

  /** Once settled, a promise keeps its outcome. */
  lemma OutcomeStays(q: State, q': State, id: nat)
    requires q.settled <= q'.settled && Inv(q') && OutcomeOf(q.settled, id).Some?
    ensures OutcomeOf(q'.settled, id) == OutcomeOf(q.settled, id)
  {
    Conservation(q');
    hide Inv;
    var ss, more := q.settled, q'.settled[|q.settled|..];
    OutcomeListed(ss, id);
    var k :| 0 <= k < |ss| && SettledIds(ss)[k] == id;
    hide SettledIds, OutcomeOf;
    assert q'.settled == ss + more;
    forall i | 0 <= i < |more| ensures more[i].id != id {
      assert q'.settled[k].id != q'.settled[|ss| + i].id;
    }
    OutcomeLasts(ss, more, id);
  }

  /** A promise that resolved belongs to a job the bridge was given. */
  lemma {:induction false} ResolvedHanded(q: State, id: nat)
    requires WritesBegun(q) && OutcomeOf(q.settled, id) == Some(Resolved)
    ensures WasHanded(q, id)
  {
    var i := OutcomeIndex(q.settled, id);
  }

  lemma {:induction false} OutcomeIndex(ss: seq<Settled>, id: nat) returns (i: nat)
    requires OutcomeOf(ss, id).Some?
    ensures i < |ss| && ss[i] == Settled(id, OutcomeOf(ss, id).value)
    decreases |ss|
  {
    i := |ss| - 1;
    if ss[i].id != id { i := OutcomeIndex(ss[..i], id); }
  }

  /** A settled job waits no more. */
  lemma SettledNotWaiting(q: State, job: Job)
    requires Partitioned(q) && job in q.queue
    ensures OutcomeOf(q.settled, job.id).None?
  {
    if OutcomeOf(q.settled, job.id).Some? {
      OutcomeListed(q.settled, job.id);
      var i :| 0 <= i < |q.queue| && q.queue[i] == job;
      assert JobIds(q.queue)[i] == job.id;
      assert job.id in multiset(SettledIds(q.settled)) && job.id in multiset(JobIds(q.queue));
      OneOfEach(q.submitted, job.id);
      assert false;
    }
  }
}
