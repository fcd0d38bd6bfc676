/** The api's scheduler: the speed of the highest-priority schedule that applies today. */
module Scheduler {
  import opened Segments
  import Timeline
  import ControlState

  datatype Schedule = Schedule(enabled: bool, days: seq<int>, priority: int, segments: seq<Segment>) {
    predicate Applies(day: int) { enabled && day in days }
  }

  function Candidates(ss: seq<Schedule>, day: int): seq<Schedule> {
    if ss == [] then []
    else
      var r, x := Candidates(ss[..|ss| - 1], day), ss[|ss| - 1];
      if x.Applies(day) then r + [x] else r
  }

  /** Array.sort by falling priority, stable. */
  function InsertByPriority(ss: seq<Schedule>, x: Schedule): seq<Schedule>
    decreases |ss|
  {
    if ss == [] || ss[|ss| - 1].priority >= x.priority then ss + [x]
    else InsertByPriority(ss[..|ss| - 1], x) + [ss[|ss| - 1]]
  }

  function SortByPriority(ss: seq<Schedule>): seq<Schedule> {
    if ss == [] then [] else InsertByPriority(SortByPriority(ss[..|ss| - 1]), ss[|ss| - 1])
  }

  /** The schedule in charge: the first listed of those with the highest priority. */
  ghost predicate InCharge(ss: seq<Schedule>, day: int, k: int) {
    && 0 <= k < |ss| && ss[k].enabled && day in ss[k].days
    && forall i :: 0 <= i < |ss| && ss[i].enabled && day in ss[i].days ==>
         ss[i].priority < ss[k].priority || (ss[i].priority == ss[k].priority && k <= i)
  }

  ghost predicate Falling(ss: seq<Schedule>) {
    forall i, j :: 0 <= i < j < |ss| ==> ss[i].priority >= ss[j].priority
  }

  /** Inserting keeps the order; the newcomer is first only if strictly above all. */
  lemma {:induction false} InsertHead(ss: seq<Schedule>, x: Schedule)
    requires Falling(ss)
    ensures Falling(InsertByPriority(ss, x)) && |InsertByPriority(ss, x)| == |ss| + 1
    ensures InsertByPriority(ss, x)[0] == if ss == [] || x.priority > ss[0].priority then x else ss[0]
    ensures forall i :: 0 <= i <= |ss| ==>
              InsertByPriority(ss, x)[i].priority == x.priority
              || exists j :: 0 <= j < |ss| && InsertByPriority(ss, x)[i].priority == ss[j].priority
    decreases |ss|
  {
    if ss == [] {
    } else if ss[|ss| - 1].priority >= x.priority {
      forall i | 0 <= i <= |ss|
        ensures (ss + [x])[i].priority == x.priority
                || exists j :: 0 <= j < |ss| && (ss + [x])[i].priority == ss[j].priority
      {
        if i < |ss| { assert (ss + [x])[i] == ss[i]; }
      }
    } else {
      var pre, last := ss[..|ss| - 1], ss[|ss| - 1];
      InsertHead(pre, x);
      var r := InsertByPriority(pre, x);
      forall i | 0 <= i <= |ss|
        ensures (r + [last])[i].priority == x.priority
                || exists j :: 0 <= j < |ss| && (r + [last])[i].priority == ss[j].priority
        ensures (r + [last])[i].priority >= last.priority
      {
        if i < |r| && r[i].priority != x.priority {
          var j :| 0 <= j < |pre| && r[i].priority == pre[j].priority;
          assert pre[j] == ss[j];
        }
      }
    }
  }

  lemma InChargeSnoc(ss: seq<Schedule>, x: Schedule, day: int, k: int)
    requires InCharge(ss, day, k)
    ensures if x.Applies(day) && x.priority > ss[k].priority then InCharge(ss + [x], day, |ss|)
            else InCharge(ss + [x], day, k)
  {}

  lemma CandidatesSnoc(ss: seq<Schedule>, x: Schedule, day: int)
    ensures Candidates(ss + [x], day) == if x.Applies(day) then Candidates(ss, day) + [x] else Candidates(ss, day)
  {
    assert (ss + [x])[..|ss|] == ss;
  }

  lemma SortSnoc(cs: seq<Schedule>, x: Schedule)
    ensures SortByPriority(cs + [x]) == InsertByPriority(SortByPriority(cs), x)
  {
    assert (cs + [x])[..|cs|] == cs;
  }

  ghost predicate NoneApplies(ss: seq<Schedule>, day: int) { 
    forall i :: 0 <= i < |ss| ==> !(ss[i].enabled && day in ss[i].days)
  }

  /** The sorted candidates are headed by the schedule in charge, and empty if none applies. */
  ghost predicate Headed(ss: seq<Schedule>, day: int, sorted: seq<Schedule>, k: int) {
    && Falling(sorted)
    && (sorted == [] <==> NoneApplies(ss, day))
    && (sorted != [] ==> InCharge(ss, day, k) && ss[k] == sorted[0])
  }

  lemma NoneSnoc(ss: seq<Schedule>, x: Schedule, day: int)
    ensures NoneApplies(ss + [x], day) <==> NoneApplies(ss, day) && !x.Applies(day)
    ensures NoneApplies(ss, day) && x.Applies(day) ==> InCharge(ss + [x], day, |ss|)
  {
    assert (ss + [x])[|ss|] == x;
    if NoneApplies(ss + [x], day) {
      forall i | 0 <= i < |ss| ensures !ss[i].Applies(day) { assert (ss + [x])[i] == ss[i]; }
    }
  }

  lemma HeadedSnoc(ss: seq<Schedule>, x: Schedule, day: int, sorted: seq<Schedule>, k: int) returns (n: int)
    requires Headed(ss, day, sorted, k)
    ensures Headed(ss + [x], day, if x.Applies(day) then InsertByPriority(sorted, x) else sorted, n)
  {
    hide Falling, InsertByPriority, Schedule.Applies, InCharge, NoneApplies;
    NoneSnoc(ss, x, day);
    if x.Applies(day) { InsertHead(sorted, x); }
    if sorted == [] {
      n := |ss|;
    } else {
      InChargeSnoc(ss, x, day, k);
      KBelow(ss, day, k);
      n := if x.Applies(day) && x.priority > sorted[0].priority then |ss| else k;
    }
  }

  lemma KBelow(ss: seq<Schedule>, day: int, k: int)
    requires InCharge(ss, day, k)
    ensures 0 <= k < |ss|
  {}

  /** The head of the sorted candidates is the schedule in charge. */
  lemma {:induction false} HeadInCharge(ss: seq<Schedule>, day: int) returns (k: int)
    ensures Headed(ss, day, SortByPriority(Candidates(ss, day)), k)
    decreases |ss|
  {
    k := 0;
    if ss != [] {
      hide Headed, InsertByPriority, SortByPriority, Candidates, Schedule.Applies;
      var pre, x := ss[..|ss| - 1], ss[|ss| - 1];
      k := HeadInCharge(pre, day);
      assert ss == pre + [x];
      CandidatesSnoc(pre, x, day);
      SortSnoc(Candidates(pre, day), x);
      k := HeadedSnoc(pre, x, day, SortByPriority(Candidates(pre, day)), k);
    }
  }

  lemma OneInCharge(ss: seq<Schedule>, day: int, j: int, k: int)
    requires InCharge(ss, day, j) && InCharge(ss, day, k)
    ensures j == k
  {}

  /** What activeRpm returns. */
  function ActiveSpeed(schedules: seq<Schedule>, day: int, minutes: int): int {
    var candidates := SortByPriority(Candidates(schedules, day));
    if candidates == [] || candidates[0].segments == [] then 0
    else
      SortKeepsLength(candidates[0].segments);
      var segs := SortSegments(candidates[0].segments);
      Started(segs, |segs|, minutes).rpm
  }

  lemma SortKeepsLength(segs: seq<Segment>)
    ensures |SortSegments(segs)| == |segs|
  {
    SortIsStable(segs, 0);
    assert |multiset(SortSegments(segs))| == |multiset(segs)|;
  }

  /** activeRpm, given the day of the week and the minute of the day. */
  method ActiveRpm(schedules: seq<Schedule>, day: int, minutes: int) returns (rpm: int)
    ensures rpm == ActiveSpeed(schedules, day, minutes)
    ensures NoneApplies(schedules, day) ==> rpm == 0
    ensures forall k :: InCharge(schedules, day, k) ==> rpm == Resolve(schedules[k].segments, minutes)
  {
    var candidates := SortByPriority(Candidates(schedules, day));
    ghost var k := HeadInCharge(schedules, day);
    hide InCharge, NoneApplies, Falling, SortByPriority, Candidates, Segment.Minute, Schedule.Applies;
    forall j | InCharge(schedules, day, j) && InCharge(schedules, day, k) ensures j == k {
      OneInCharge(schedules, day, j, k);
    }
    if |candidates| == 0 {
      forall j ensures !InCharge(schedules, day, j) { NoneInCharge(schedules, day, j); }
      return 0;
    }
    if |candidates[0].segments| == 0 { return 0; }
    var segs := SortSegments(candidates[0].segments);
    LastStartedResolves(candidates[0].segments, minutes);
    var active := segs[|segs| - 1]; // wraps from the previous day before the first start
    for i := 0 to |segs|
      invariant active == Started(segs, i, minutes)
    {
      StartedStep(segs, i, minutes);
      if segs[i].Minute() <= minutes { active := segs[i]; }
    }
    assert segs[..|segs|] == segs;
    rpm := active.rpm;
  }

  lemma NoneInCharge(ss: seq<Schedule>, day: int, k: int)
    requires NoneApplies(ss, day)
    ensures !InCharge(ss, day, k)
  {}

  /** What the loop holds after i segments. */
  function Started(s: seq<Segment>, i: nat, minutes: int): Segment
    requires s != [] && i <= |s|
  {
    match Best(s[..i], minutes)
    case Some(x) => x
    case None => s[|s| - 1]
  }

  lemma StartedStep(s: seq<Segment>, i: nat, minutes: int)
    requires Sorted(s) && i < |s|
    ensures Started(s, i + 1, minutes) == if s[i].Minute() <= minutes then s[i] else Started(s, i, minutes)
  {
    BestStep(s, i, minutes);
  }

  lemma LastStartedResolves(segs: seq<Segment>, minutes: int)
    requires segs != []
    ensures SortSegments(segs) != [] && Sorted(SortSegments(segs))
    ensures Started(SortSegments(segs), |SortSegments(segs)|, minutes).rpm == Resolve(segs, minutes)
  {
    hide Best, SortSegments, Sorted, Segment.Minute;
    SortIsStable(segs, 0);
    assert |multiset(SortSegments(segs))| == |multiset(segs)|;
    BestOfSorted(segs, minutes);
    BestOfSorted(segs, DAY);
    BestLast(SortSegments(segs));
    assert SortSegments(segs)[..|SortSegments(segs)|] == SortSegments(segs);
  }

  lemma ActiveSpeedResolves(schedules: seq<Schedule>, day: int, minutes: int, k: int)
    requires InCharge(schedules, day, k)
    ensures ActiveSpeed(schedules, day, minutes) == Resolve(schedules[k].segments, minutes)
  {
    var j := HeadInCharge(schedules, day);
    hide SortByPriority, Candidates, Best, SortSegments, Segment.Minute, Schedule.Applies, InCharge, Falling;
    if NoneApplies(schedules, day) {
      NoneInCharge(schedules, day, k);
    } else {
      OneInCharge(schedules, day, j, k);
      KBelow(schedules, day, k);
      if schedules[k].segments != [] {
        LastStartedResolves(schedules[k].segments, minutes);
      } else {
        NothingResolves(minutes);
      }
    }
  }

  lemma NothingResolves(t: int)
    ensures Resolve([], t) == 0
  {}

  /** The two schedulers agree: for every list of schedules, day, and minute of the day, the speed
      the api drives is the speed the web app's blocks show for the schedule in charge, however
      its segments are listed and with equal starts; and none in charge means speed zero. */
  lemma SchedulersAgree(schedules: seq<Schedule>, day: int, m: int)
    requires 0 <= m < DAY
    ensures forall k :: InCharge(schedules, day, k) ==>
              ActiveSpeed(schedules, day, m) == Timeline.Lookup(Timeline.Blocks(schedules[k].segments), m)
    ensures (forall k :: !InCharge(schedules, day, k)) ==> ActiveSpeed(schedules, day, m) == 0
  {
    var j := HeadInCharge(schedules, day);
    hide SortByPriority, Candidates, Falling, NoneApplies, Resolve, Timeline.Lookup, Timeline.Blocks, Schedule.Applies;
    forall k | InCharge(schedules, day, k)
      ensures ActiveSpeed(schedules, day, m) == Timeline.Lookup(Timeline.Blocks(schedules[k].segments), m)
    {
      ActiveSpeedResolves(schedules, day, m, k);
      Timeline.LookupResolves(schedules[k].segments, m);
    }
  }

  // ---------- feeding the control state ----------

  /** What a tick makes of the control state: whether any schedule is enabled at all, then the
      speed of the schedule in charge. */
  function OnTick(s: ControlState.State, active: bool, rpm: int): (ControlState.State, bool, bool) {
    var (s1, n1) := ControlState.OnChange(s, ControlState.SetScheduleActive(active), 0);
    var (s2, n2) := ControlState.OnChange(s1, ControlState.SetScheduledRpm(rpm as real), 0);
    (s2, n1, n2)
  }

  class Scheduler {
    const state: ControlState.ControlState
    var schedules: seq<Schedule>

    constructor (state: ControlState.ControlState)
      ensures this.state == state && schedules == []
    {
      this.state := state;
      schedules := [];
    }

    method SetSchedules(ss: seq<Schedule>, day: int, minutes: int) returns (rpm: int, first: bool, second: bool)
      modifies this, state
      ensures schedules == ss
      ensures (state.Abs(), first, second)
           == OnTick(old(state.Abs()), exists k :: 0 <= k < |ss| && ss[k].enabled, rpm)
      ensures NoneApplies(ss, day) ==> rpm == 0
      ensures forall k :: InCharge(ss, day, k) ==> rpm == Resolve(ss[k].segments, minutes)
    {
      schedules := ss;
      rpm, first, second := Tick(day, minutes);
    }

    /** first and second tell whether the change callbacks ran at each of the two updates. */
    method Tick(day: int, minutes: int) returns (rpm: int, first: bool, second: bool)
      modifies state
      ensures (state.Abs(), first, second)
           == OnTick(old(state.Abs()), exists k :: 0 <= k < |schedules| && schedules[k].enabled, rpm)
      ensures NoneApplies(schedules, day) ==> rpm == 0
      ensures forall k :: InCharge(schedules, day, k) ==> rpm == Resolve(schedules[k].segments, minutes)
    {
      hide InCharge, NoneApplies;
      first := state.Apply(ControlState.SetScheduleActive(AnyEnabled(schedules)), 0);
      rpm := ActiveRpm(schedules, day, minutes);
      second := state.Apply(ControlState.SetScheduledRpm(rpm as real), 0);
    }
  }

  predicate AnyEnabled(ss: seq<Schedule>) { exists k :: 0 <= k < |ss| && ss[k].enabled }

  /** A tick settles the scheduled intent and nothing else, a second one with the same input
      changes nothing and is silent, and whenever the speed to drive or the decision to
      release changed, the change callbacks ran after the last change. */
  lemma TickIsIdempotentAndHeard(s: ControlState.State, active: bool, rpm: int)
    ensures var (s', n1, n2) := OnTick(s, active, rpm);
            && OnTick(s', active, rpm) == (s', false, false)
            && (s'.mode, s'.manualRpm, s'.overrideUntil, s'.busConnected)
                 == (s.mode, s.manualRpm, s.overrideUntil, s.busConnected)
            && s'.scheduledRpm == rpm as real && s'.scheduleActive == active
            && (s'.mode == ControlState.Schedule ==> s'.TargetRpm() == rpm as real && s'.Releasing() == !active)
            && (s'.TargetRpm() != s.TargetRpm() ==> n2)
            && (s'.Releasing() != s.Releasing() ==> n1)
  {}
}
