/** The app's control intent: mode, manual and scheduled speed, and a timed override. */
module ControlState {
  import opened Options

  datatype Mode = Schedule | Manual | Off

  datatype State = State(mode: Mode, manualRpm: real, scheduledRpm: real, scheduleActive: bool,
                         overrideUntil: Option<int>, busConnected: bool)
  {
    /** The RPM the engine should drive right now. */
    function TargetRpm(): real {
      match mode
      case Manual => manualRpm
      case Schedule => scheduledRpm
      case Off => 0.0
    }

    /** Off, or in schedule mode without a schedule: the pump is left to its own program. */
    predicate Releasing() { mode == Off || (mode == Schedule && !scheduleActive) }
  }

  datatype Change =
    | SetManual(rpm: real, durationMinutes: Option<int>)
    | ResumeSchedule
    | SetOff
    | RestoreIntent(mode: Mode, manualRpm: real)
    | SetScheduledRpm(rpm: real)
    | SetScheduleActive(active: bool)
    | SetBusConnected(connected: bool)

  /** The new state, and whether the change callbacks run. */
  function OnChange(s: State, c: Change, now: int): (State, bool) {
    match c
    case SetManual(rpm, duration) =>
      (s.(mode := Manual, manualRpm := rpm,
          overrideUntil := if duration.Some? && duration.value != 0 then Some(now + duration.value * 60_000)
                           else None), true)
    case ResumeSchedule => (s.(mode := Schedule, overrideUntil := None), true)
    case SetOff => (s.(mode := Off, overrideUntil := None), true)
    case RestoreIntent(m, rpm) => (s.(mode := m, manualRpm := rpm, overrideUntil := None), true)
    case SetScheduledRpm(rpm) =>
      if rpm == s.scheduledRpm then (s, false) else (s.(scheduledRpm := rpm), s.mode == Schedule)
    case SetScheduleActive(active) =>
      if active == s.scheduleActive then (s, false) else (s.(scheduleActive := active), s.mode == Schedule)
    case SetBusConnected(connected) =>
      if connected == s.busConnected then (s, false) else (s.(busConnected := connected), true)
  }

  /** tickOverride: a timed manual override that ran out falls back to the schedule. */
  function OnTickOverride(s: State, now: int): (State, bool) {
    if s.mode == Manual && s.overrideUntil.Some? && now > s.overrideUntil.value then
      (s.(mode := Schedule, overrideUntil := None), true)
    else (s, false)
  }

  /** No change that matters goes unheard: whenever the speed to drive, the decision to hand
      control back, or the bus state changes, the change callbacks run. */
  lemma ChangesAreHeard(s: State, c: Change, now: int)
    ensures var (s', notify) := OnChange(s, c, now);
            (s'.TargetRpm(), s'.Releasing(), s'.busConnected) != (s.TargetRpm(), s.Releasing(), s.busConnected)
            ==> notify
    ensures var (s', notify) := OnTickOverride(s, now);
            s' != s <==> notify
  {}

  /** An override deadline exists in manual mode only. */
  predicate OverrideOk(s: State) { s.overrideUntil.Some? ==> s.mode == Manual }

  /** Every change keeps that, and after a tick no override is past its deadline. */
  lemma OverridesEnd(s: State, c: Change, now: int)
    requires OverrideOk(s)
    ensures OverrideOk(OnChange(s, c, now).0)
    ensures var s' := OnTickOverride(s, now).0;
            OverrideOk(s') && (s'.overrideUntil.Some? ==> now <= s'.overrideUntil.value)
  {}

  class ControlState {
    var controlMode: Mode
    var manualRpm: real
    var scheduledRpm: real
    var scheduleActive: bool
    var overrideUntil: Option<int>
    var busConnected: bool

    ghost function Abs(): State
      reads this
    {
      State(controlMode, manualRpm, scheduledRpm, scheduleActive, overrideUntil, busConnected)
    }

    constructor ()
      ensures Abs() == State(Schedule, 0.0, 0.0, false, None, false)
    {
      controlMode, manualRpm, scheduledRpm, scheduleActive := Schedule, 0.0, 0.0, false;
      overrideUntil, busConnected := None, false;
    }

    /** notify tells the caller to run the change callbacks. */
    method Apply(c: Change, now: int) returns (notify: bool)
      modifies this
      ensures (Abs(), notify) == OnChange(old(Abs()), c, now)
    {
      notify := true;
      match c {
        case SetManual(rpm, duration) =>
          controlMode, manualRpm := Manual, rpm;
          overrideUntil := if duration.Some? && duration.value != 0 then Some(now + duration.value * 60_000) else None;
        case ResumeSchedule => controlMode, overrideUntil := Schedule, None;
        case SetOff => controlMode, overrideUntil := Off, None;
        case RestoreIntent(m, rpm) => controlMode, manualRpm, overrideUntil := m, rpm, None;
        case SetScheduledRpm(rpm) =>
          if rpm == scheduledRpm { return false; }
          scheduledRpm := rpm;
          notify := controlMode == Schedule;
        case SetScheduleActive(active) =>
          if active == scheduleActive { return false; }
          scheduleActive := active;
          notify := controlMode == Schedule;
        case SetBusConnected(connected) =>
          if connected == busConnected { return false; }
          busConnected := connected;
      }
    }

    method TickOverride(now: int) returns (fired: bool)
      modifies this
      ensures (Abs(), fired) == OnTickOverride(old(Abs()), now)
    {
      fired := controlMode == Manual && overrideUntil.Some? && now > overrideUntil.value;
      if fired { controlMode, overrideUntil := Schedule, None; }
    }

    function TargetRpm(): (rpm: real)
      reads this
      ensures rpm == Abs().TargetRpm()
    {
      match controlMode
      case Manual => manualRpm
      case Schedule => scheduledRpm
      case Off => 0.0
    }
  }
}
