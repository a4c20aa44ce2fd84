/**
 Operating hours. An instant is a number of milliseconds since some Monday midnight in the schedule's timezone, without
 daylight-saving shifts. The program reads hours, minutes and seconds but not milliseconds, so all its arithmetic is
 done here in whole seconds; what it calls minutes remaining is `secondsRemaining` divided by sixty.
 */
module OperatingHours {
  import opened Wrappers

  const DAY_SECONDS := 86400

  type MinuteOfDay = m: int | 0 <= m < 1440

  /** A window that ends at or before its start runs past midnight. */
  datatype Window = Window(start: MinuteOfDay, end: MinuteOfDay) {
    predicate Overnight() {
      end <= start
    }
  }

  datatype Day = Day(enabled: bool, windows: seq<Window>)

  datatype OperationType = TaskDiscovery | Analysis | Implementation | Fix | Review | QualityGate | Delivery | CiCheck

  datatype ScheduleConfig = ScheduleConfig(
    enabled: bool,
    days: seq<Day>,
    minimumForNewTask: nat,
    minimumForAnalysis: nat,
    minimumForImplementation: nat,
    minimumForReview: nat,
    startNewStep: nat,
    finishCurrentStep: bool,
    allowMechanicalOutsideHours: bool)

  /** Monday to Sunday are always all configured. */
  type Schedule = s: ScheduleConfig | |s.days| == 7
    witness ScheduleConfig(false, seq(7, _ => Day(false, [])), 0, 0, 0, 0, 0, false, false)

  datatype Reason = ScheduleDisabled | OutsideWindow | InsufficientRemainingTime | Open

  /** `secondsRemaining` is None when the schedule is disabled and nothing limits the work. */
  datatype Hours = Hours(isOpen: bool, secondsRemaining: Option<int>, canStart: bool, reason: Reason)

  function SecondOf(now: int): int {
    now / 1000
  }

  function DayNumber(second: int): int {
    second / DAY_SECONDS
  }

  function DayConfig(schedule: Schedule, day: int): Day {
    schedule.days[day % 7]
  }

  function Max(a: int, b: int): int {
    if a < b then b else a
  }

  function MinimumMinutesFor(schedule: Schedule, operation: OperationType): nat {
    match operation
    case TaskDiscovery => schedule.minimumForNewTask
    case Analysis => schedule.minimumForAnalysis
    case Implementation => schedule.minimumForImplementation
    case Fix => schedule.minimumForImplementation
    case Review => schedule.minimumForReview
    case QualityGate => 0
    case Delivery => 0
    case CiCheck => 0
  }

  function WindowSecondsRemaining(current: int, end: MinuteOfDay): int {
    if end * 60 > current then end * 60 - current else DAY_SECONDS - current + end * 60
  }

  predicate ActiveToday(window: Window, current: int) {
    if window.Overnight() then current >= window.start * 60
    else window.start * 60 <= current < window.end * 60
  }

  predicate ActiveFromYesterday(window: Window, current: int) {
    window.Overnight() && current < window.end * 60
  }

  function YesterdayRemaining(window: Window, current: int): int {
    if current == 0 then window.end * 60 else window.end * 60 - current
  }

  /** The longest time an active window of today still runs; 0 when none is active. */
  function TodayRemaining(windows: seq<Window>, current: int): int {
    if |windows| == 0 then 0
    else
      var rest := TodayRemaining(windows[..|windows| - 1], current);
      var window := windows[|windows| - 1];
      if ActiveToday(window, current) then Max(rest, WindowSecondsRemaining(current, window.end)) else rest
  }

  function CarriedRemaining(windows: seq<Window>, current: int): int {
    if |windows| == 0 then 0
    else
      var rest := CarriedRemaining(windows[..|windows| - 1], current);
      var window := windows[|windows| - 1];
      if ActiveFromYesterday(window, current) then Max(rest, YesterdayRemaining(window, current)) else rest
  }

  predicate AnyActiveToday(windows: seq<Window>, current: int) {
    exists i :: 0 <= i < |windows| && ActiveToday(windows[i], current)
  }

  predicate AnyCarried(windows: seq<Window>, current: int) {
    exists i :: 0 <= i < |windows| && ActiveFromYesterday(windows[i], current)
  }

  function Verdict(schedule: Schedule, operation: OperationType, isOpen: bool, remaining: int): Hours {
    if !isOpen then Hours(false, Some(0), false, OutsideWindow)
    else if remaining < MinimumMinutesFor(schedule, operation) * 60 then
      Hours(true, Some(remaining), false, InsufficientRemainingTime)
    else Hours(true, Some(remaining), true, Open)
  }

  /** The hours at one instant; yesterday's overnight windows count only when no window of today is active. */
  function HoursFor(schedule: Schedule, operation: OperationType, now: int): Hours {
    if !schedule.enabled then Hours(true, None, true, ScheduleDisabled)
    else
      var second := SecondOf(now);
      var today := DayConfig(schedule, DayNumber(second));
      var yesterday := DayConfig(schedule, DayNumber(second) - 1);
      var current := second % DAY_SECONDS;
      if today.enabled && AnyActiveToday(today.windows, current) then
        Verdict(schedule, operation, true, TodayRemaining(today.windows, current))
      else if yesterday.enabled && AnyCarried(yesterday.windows, current) then
        Verdict(schedule, operation, true, CarriedRemaining(yesterday.windows, current))
      else Verdict(schedule, operation, false, 0)
  }

  /** Nothing remains of windows of which none is active. */
  lemma {:induction false} ClosedTodayRemaining(windows: seq<Window>, current: int)
    requires !AnyActiveToday(windows, current)
    ensures TodayRemaining(windows, current) == 0
  {
    if |windows| > 0 {
      var shorter := windows[..|windows| - 1];
      assert forall i :: 0 <= i < |shorter| ==> shorter[i] == windows[i];
      ClosedTodayRemaining(shorter, current);
    }
  }

  /** The program's own loops over the windows of today and of yesterday. */
  method OperatingHoursFor(schedule: Schedule, operation: OperationType, now: int) returns (hours: Hours)
    ensures hours == HoursFor(schedule, operation, now)
  {
    if !schedule.enabled {
      return Hours(true, None, true, ScheduleDisabled);
    }
    var second := SecondOf(now);
    var currentDay := DayConfig(schedule, DayNumber(second));
    var previousDay := DayConfig(schedule, DayNumber(second) - 1);
    var current := second % DAY_SECONDS;
    var remaining := 0;
    var isOpen := false;
    if currentDay.enabled {
      for i := 0 to |currentDay.windows|
        invariant isOpen <==> AnyActiveToday(currentDay.windows[..i], current)
        invariant remaining == TodayRemaining(currentDay.windows[..i], current)
      {
        var window := currentDay.windows[i];
        var shorter := currentDay.windows[..i];
        var longer := currentDay.windows[..i + 1];
        assert longer[..i] == shorter && longer[i] == window;
        assert forall k :: 0 <= k < i ==> longer[k] == shorter[k];
        if ActiveToday(window, current) {
          isOpen := true;
          remaining := Max(remaining, WindowSecondsRemaining(current, window.end));
        }
      }
      assert currentDay.windows[..|currentDay.windows|] == currentDay.windows;
    }
    assert isOpen <==> currentDay.enabled && AnyActiveToday(currentDay.windows, current);
    if !isOpen && previousDay.enabled {
      if currentDay.enabled {
        ClosedTodayRemaining(currentDay.windows, current);
      }
      for i := 0 to |previousDay.windows|
        invariant isOpen <==> AnyCarried(previousDay.windows[..i], current)
        invariant remaining == CarriedRemaining(previousDay.windows[..i], current)
      {
        var window := previousDay.windows[i];
        var shorter := previousDay.windows[..i];
        var longer := previousDay.windows[..i + 1];
        assert longer[..i] == shorter && longer[i] == window;
        assert forall k :: 0 <= k < i ==> longer[k] == shorter[k];
        if window.end <= window.start && current < window.end * 60 {
          isOpen := true;
          remaining := Max(remaining, if current == 0 then window.end * 60 else window.end * 60 - current);
        }
      }
      assert previousDay.windows[..|previousDay.windows|] == previousDay.windows;
    }
    if !isOpen {
      return Hours(false, Some(0), false, OutsideWindow);
    }
    if remaining < MinimumMinutesFor(schedule, operation) * 60 {
      return Hours(true, Some(remaining), false, InsufficientRemainingTime);
    }
    return Hours(true, Some(remaining), true, Open);
  }

  // ------------------------------------------------------------------ what the answer means

  function Opens(day: int, window: Window): int {
    day * DAY_SECONDS + window.start * 60
  }

  function Closes(day: int, window: Window): int {
    day * DAY_SECONDS + window.end * 60 + if window.Overnight() then DAY_SECONDS else 0
  }

  /** Window `i` of absolute day `day`, as an interval on the time line, contains `second`. */
  predicate Covers(schedule: Schedule, day: int, i: int, second: int) {
    var config := DayConfig(schedule, day);
    && config.enabled
    && 0 <= i < |config.windows|
    && Opens(day, config.windows[i]) <= second < Closes(day, config.windows[i])
  }

  /** Some window opened on some day is still running. */
  ghost predicate OpenAt(schedule: Schedule, second: int) {
    exists day: int, i: int :: Covers(schedule, day, i, second)
  }

  /** A covering window belongs to today or to yesterday. */
  lemma CoveringDay(schedule: Schedule, day: int, i: int, second: int)
    requires Covers(schedule, day, i, second)
    ensures day == DayNumber(second) || day == DayNumber(second) - 1
  {
  }

  lemma TodayCovers(schedule: Schedule, i: int, second: int)
    requires var config := DayConfig(schedule, DayNumber(second)); config.enabled && 0 <= i < |config.windows|
    ensures ActiveToday(DayConfig(schedule, DayNumber(second)).windows[i], second % DAY_SECONDS)
        <==> Covers(schedule, DayNumber(second), i, second)
  {
  }

  lemma YesterdayCovers(schedule: Schedule, i: int, second: int)
    requires var config := DayConfig(schedule, DayNumber(second) - 1); config.enabled && 0 <= i < |config.windows|
    ensures ActiveFromYesterday(DayConfig(schedule, DayNumber(second) - 1).windows[i], second % DAY_SECONDS)
        <==> Covers(schedule, DayNumber(second) - 1, i, second)
  {
  }

  /** The answer `isOpen` is right: it is given exactly when some window's interval contains the instant. */
  lemma OpenExactlyInWindows(schedule: Schedule, operation: OperationType, now: int)
    requires schedule.enabled
    ensures HoursFor(schedule, operation, now).isOpen <==> OpenAt(schedule, SecondOf(now))
  {
    var second := SecondOf(now);
    var today := DayConfig(schedule, DayNumber(second));
    var yesterday := DayConfig(schedule, DayNumber(second) - 1);
    if HoursFor(schedule, operation, now).isOpen {
      if today.enabled && AnyActiveToday(today.windows, second % DAY_SECONDS) {
        var i :| 0 <= i < |today.windows| && ActiveToday(today.windows[i], second % DAY_SECONDS);
        TodayCovers(schedule, i, second);
      } else {
        var i :| 0 <= i < |yesterday.windows| && ActiveFromYesterday(yesterday.windows[i], second % DAY_SECONDS);
        YesterdayCovers(schedule, i, second);
      }
    }
    if OpenAt(schedule, second) {
      var day: int, i: int :| Covers(schedule, day, i, second);
      CoveringDay(schedule, day, i, second);
      if day == DayNumber(second) {
        TodayCovers(schedule, i, second);
      } else {
        YesterdayCovers(schedule, i, second);
      }
    }
  }

  /** The reported rest is the rest of some window that is active now. */
  lemma {:induction false} TodayRemainingIsAWindow(windows: seq<Window>, current: int) returns (i: int)
    requires 0 <= current < DAY_SECONDS && AnyActiveToday(windows, current)
    ensures 0 <= i < |windows| && ActiveToday(windows[i], current)
    ensures TodayRemaining(windows, current) == WindowSecondsRemaining(current, windows[i].end)
    ensures forall k | 0 <= k < |windows| && ActiveToday(windows[k], current) ::
      WindowSecondsRemaining(current, windows[k].end) <= TodayRemaining(windows, current)
  {
    var last := |windows| - 1;
    var shorter := windows[..last];
    assert forall k :: 0 <= k < |shorter| ==> shorter[k] == windows[k];
    if AnyActiveToday(shorter, current) {
      i := TodayRemainingIsAWindow(shorter, current);
      var more := WindowSecondsRemaining(current, windows[last].end);
      if ActiveToday(windows[last], current) && TodayRemaining(shorter, current) < more {
        i := last;
      }
    } else {
      ClosedTodayRemaining(shorter, current);
      i := last;
      assert ActiveToday(windows[last], current) by {
        var k :| 0 <= k < |windows| && ActiveToday(windows[k], current);
        assert k == last;
      }
    }
  }

  lemma {:induction false} NothingCarried(windows: seq<Window>, current: int)
    requires !AnyCarried(windows, current)
    ensures CarriedRemaining(windows, current) == 0
  {
    if |windows| > 0 {
      var shorter := windows[..|windows| - 1];
      assert forall i :: 0 <= i < |shorter| ==> shorter[i] == windows[i];
      NothingCarried(shorter, current);
    }
  }

  lemma {:induction false} CarriedRemainingIsAWindow(windows: seq<Window>, current: int) returns (i: int)
    requires 0 <= current < DAY_SECONDS && AnyCarried(windows, current)
    ensures 0 <= i < |windows| && ActiveFromYesterday(windows[i], current)
    ensures CarriedRemaining(windows, current) == windows[i].end * 60 - current
    ensures forall k | 0 <= k < |windows| && ActiveFromYesterday(windows[k], current) ::
      windows[k].end * 60 - current <= CarriedRemaining(windows, current)
  {
    var last := |windows| - 1;
    var shorter := windows[..last];
    assert forall k :: 0 <= k < |shorter| ==> shorter[k] == windows[k];
    if AnyCarried(shorter, current) {
      i := CarriedRemainingIsAWindow(shorter, current);
      var more := YesterdayRemaining(windows[last], current);
      if ActiveFromYesterday(windows[last], current) && CarriedRemaining(shorter, current) < more {
        i := last;
      }
    } else {
      NothingCarried(shorter, current);
      i := last;
      assert ActiveFromYesterday(windows[last], current) by {
        var k :| 0 <= k < |windows| && ActiveFromYesterday(windows[k], current);
        assert k == last;
      }
    }
  }

  /** The reported rest ends when the last window of one day that covers the instant closes. */
  lemma RemainingEndsAWindow(schedule: Schedule, operation: OperationType, now: int) returns (day: int, i: int)
    requires schedule.enabled && HoursFor(schedule, operation, now).isOpen
    ensures Covers(schedule, day, i, SecondOf(now))
    ensures Closes(day, DayConfig(schedule, day).windows[i])
            == SecondOf(now) + HoursFor(schedule, operation, now).secondsRemaining.value
    ensures forall k | Covers(schedule, day, k, SecondOf(now)) ::
      Closes(day, DayConfig(schedule, day).windows[k])
      <= SecondOf(now) + HoursFor(schedule, operation, now).secondsRemaining.value
  {
    var second := SecondOf(now);
    var today := DayConfig(schedule, DayNumber(second));
    var yesterday := DayConfig(schedule, DayNumber(second) - 1);
    if today.enabled && AnyActiveToday(today.windows, second % DAY_SECONDS) {
      day := DayNumber(second);
      i := TodayRemainingIsAWindow(today.windows, second % DAY_SECONDS);
      TodayCovers(schedule, i, second);
    } else {
      day := DayNumber(second) - 1;
      i := CarriedRemainingIsAWindow(yesterday.windows, second % DAY_SECONDS);
      YesterdayCovers(schedule, i, second);
    }
  }

  /**
   While the schedule says open with some time remaining, it stays open for all of that time, across split, overlapping
   and overnight windows and the end of the week; and that time is positive and at most a day.
   */
  lemma OpenUntilRemaining(schedule: Schedule, operation: OperationType, now: int, later: int)
    requires schedule.enabled && HoursFor(schedule, operation, now).isOpen
    ensures 0 < HoursFor(schedule, operation, now).secondsRemaining.value <= DAY_SECONDS
    ensures SecondOf(now) <= later < SecondOf(now) + HoursFor(schedule, operation, now).secondsRemaining.value
        ==> OpenAt(schedule, later)
  {
    var day, i := RemainingEndsAWindow(schedule, operation, now);
    if SecondOf(now) <= later < SecondOf(now) + HoursFor(schedule, operation, now).secondsRemaining.value {
      assert Covers(schedule, day, i, later);
    }
  }

  /**
   Counted from the instant itself rather than from its whole second, the reported time is kept if and only if the
   instant is a whole second or another window is open when the reported time ends: the program drops milliseconds.
   */
  lemma OpenForReportedTime(schedule: Schedule, operation: OperationType, now: int)
    requires schedule.enabled && HoursFor(schedule, operation, now).isOpen
    ensures var remaining := HoursFor(schedule, operation, now).secondsRemaining.value;
      (forall later :: now <= later < now + remaining * 1000 ==> HoursFor(schedule, operation, later).isOpen)
      <==> (now % 1000 == 0 || HoursFor(schedule, operation, (SecondOf(now) + remaining) * 1000).isOpen)
  {
    var remaining := HoursFor(schedule, operation, now).secondsRemaining.value;
    OpenUntilRemaining(schedule, operation, now, SecondOf(now));
    var ending := (SecondOf(now) + remaining) * 1000;
    if now % 1000 == 0 || HoursFor(schedule, operation, ending).isOpen {
      forall later | now <= later < now + remaining * 1000 ensures HoursFor(schedule, operation, later).isOpen {
        OpenUntilRemaining(schedule, operation, now, SecondOf(later));
        OpenExactlyInWindows(schedule, operation, later);
        OpenExactlyInWindows(schedule, operation, ending);
        assert SecondOf(later) < SecondOf(now) + remaining || SecondOf(later) == SecondOf(ending);
      }
    } else {
      assert now <= ending < now + remaining * 1000;
      assert !HoursFor(schedule, operation, ending).isOpen;
    }
  }

  /** A window that closes at noon: half a second into it, the reported hour outlasts it. */
  lemma ReportedTimeCanOutlastTheWindow()
    ensures exists schedule: Schedule, now: int, later: int ::
      var hours := HoursFor(schedule, Implementation, now);
      && schedule.enabled && hours.isOpen
      && now <= later < now + hours.secondsRemaining.value * 1000
      && !HoursFor(schedule, Implementation, later).isOpen
  {
    var morning := Day(true, [Window(660, 720)]);
    var closed := Day(false, []);
    var schedule: Schedule := ScheduleConfig(true, [morning, closed, closed, closed, closed, closed, closed],
                                             0, 0, 0, 0, 0, false, false);
    var now, later := 660 * 60 * 1000 + 500, 720 * 60 * 1000;
    assert SecondOf(now) == 39600 && SecondOf(later) == 43200;
    assert DayConfig(schedule, 0) == morning;
    assert ActiveToday(morning.windows[0], 39600);
    assert morning.windows[..0] == [];
    assert TodayRemaining(morning.windows, 39600) == 3600;
    assert !AnyActiveToday(morning.windows, 43200);
    var hours := HoursFor(schedule, Implementation, now);
    assert hours.isOpen && now <= later < now + hours.secondsRemaining.value * 1000;
    assert !HoursFor(schedule, Implementation, later).isOpen;
  }
}
