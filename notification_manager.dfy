/**
 * Reminder notifications: the quiet-hours window on the minute-of-day
 * clock, the loop that picks up to 64 reminder dates in the coming week,
 * and the requests built from them. Dates are seconds; the calendar's
 * hour and minute of a date come from outside as `clock`.
 */
module NotificationManager {
  import opened Wrappers
  import opened DataModels
  import Text

  const DefaultInterval: int := 30
  const MaxNotifications: nat := 64
  const MaxLoops: nat := 1000
  const MinutesPerDay: int := 1440
  const WeekSeconds: int := 7 * 24 * 60 * 60
  const IdentifierPrefix: string := "quickMemo.reminder"

  /**
   * The quiet-window test on minutes of the day. A window whose start is
   * after its end runs across midnight; a window with equal ends is empty.
   */
  predicate QuietMinute(cur: int, start: int, end: int)
  {
    if start > end then cur >= start || cur < end else cur >= start && cur < end
  }

  /**
   * The window read as a walk around the clock: a minute is quiet exactly
   * when it is reached from `start` in fewer steps than `end` is.
   */
  lemma QuietMinuteIsClockWalk(cur: int, start: int, end: int)
    requires 0 <= cur < MinutesPerDay && 0 <= start < MinutesPerDay && 0 <= end < MinutesPerDay
    ensures QuietMinute(cur, start, end) <==> (cur - start) % MinutesPerDay < (end - start) % MinutesPerDay
  {
    if cur >= start {
      assert (cur - start) % MinutesPerDay == cur - start;
    } else {
      assert (cur - start) % MinutesPerDay == cur - start + MinutesPerDay;
    }
    if end >= start {
      assert (end - start) % MinutesPerDay == end - start;
    } else {
      assert (end - start) % MinutesPerDay == end - start + MinutesPerDay;
    }
  }

  /** A window whose two ends are the same minute holds no minute at all. */
  lemma EmptyWindow(cur: int, start: int)
    ensures !QuietMinute(cur, start, start)
  {
  }

  /** `isInQuietModeWithParams`: never quiet while quiet mode is off. */
  function IsInQuietModeWithParams(date: Date, quietModeEnabled: bool, quietStart: Date, quietEnd: Date,
                                   clock: Date -> (int, int)): (b: bool)
    ensures !quietModeEnabled ==> !b
    ensures b <==> quietModeEnabled && QuietMinute(MinuteOfDay(clock(date)), MinuteOfDay(clock(quietStart)),
                                                   MinuteOfDay(clock(quietEnd)))
  {
    if !quietModeEnabled then false
    else
      var currentMinutes := MinuteOfDay(clock(date));
      var startMinutes := MinuteOfDay(clock(quietStart));
      var endMinutes := MinuteOfDay(clock(quietEnd));
      if startMinutes > endMinutes then currentMinutes >= startMinutes || currentMinutes < endMinutes
      else currentMinutes >= startMinutes && currentMinutes < endMinutes
  }

  function MinuteOfDay(hm: (int, int)): int
  {
    hm.0 * 60 + hm.1
  }

  /** The `k`-th candidate time: `k` steps of `interval` minutes after `now`. */
  function Candidate(now: Date, interval: int, k: nat): Date
  {
    if k == 0 then now else Candidate(now, interval, k - 1) + interval * 60
  }

  lemma {:induction false} CandidateClosedForm(now: Date, interval: int, k: nat)
    ensures Candidate(now, interval, k) == now + k * interval * 60
  {
    if k > 0 {
      CandidateClosedForm(now, interval, k - 1);
      assert k * interval * 60 == (k - 1) * interval * 60 + interval * 60;
    }
  }

  /** The candidates among the first `n` that are not quiet, in order. */
  function Unquiet(now: Date, interval: int, quiet: Date -> bool, n: nat): seq<Date>
  {
    if n == 0 then []
    else
      Unquiet(now, interval, quiet, n - 1)
      + (if quiet(Candidate(now, interval, n)) then [] else [Candidate(now, interval, n)])
  }

  /** Every kept date is a candidate that is not quiet. */
  lemma {:induction false} UnquietAreCandidates(now: Date, interval: int, quiet: Date -> bool, n: nat)
    ensures |Unquiet(now, interval, quiet, n)| <= n
    ensures forall d :: d in Unquiet(now, interval, quiet, n) ==>
      !quiet(d) && exists k :: 1 <= k <= n && d == Candidate(now, interval, k)
  {
    if n > 0 {
      UnquietAreCandidates(now, interval, quiet, n - 1);
      var prev := Unquiet(now, interval, quiet, n - 1);
      forall d | d in Unquiet(now, interval, quiet, n)
        ensures !quiet(d) && exists k :: 1 <= k <= n && d == Candidate(now, interval, k)
      {
        if d in prev {
          var k :| 1 <= k <= n - 1 && d == Candidate(now, interval, k);
          assert 1 <= k <= n && d == Candidate(now, interval, k);
        } else {
          assert d == Candidate(now, interval, n);
        }
      }
      assert forall d :: d in Unquiet(now, interval, quiet, n) ==>
        exists k :: 1 <= k <= n && d == Candidate(now, interval, k);
    }
  }

  predicate StrictlyIncreasing(s: seq<int>)
  {
    forall i, j :: 0 <= i < j < |s| ==> s[i] < s[j]
  }

  /** With a positive interval the candidates grow, so the kept dates are strictly increasing. */
  lemma {:induction false} UnquietIncreasing(now: Date, interval: int, quiet: Date -> bool, n: nat)
    requires interval > 0
    ensures StrictlyIncreasing(Unquiet(now, interval, quiet, n))
    ensures now <= Candidate(now, interval, n)
    ensures forall d :: d in Unquiet(now, interval, quiet, n) ==> now < d <= Candidate(now, interval, n)
  {
    if n > 0 {
      UnquietIncreasing(now, interval, quiet, n - 1);
      var prev := Unquiet(now, interval, quiet, n - 1);
      var c := Candidate(now, interval, n);
      assert c == Candidate(now, interval, n - 1) + interval * 60;
      assert forall d :: d in prev ==> d < c;
      var ds := Unquiet(now, interval, quiet, n);
      if !quiet(c) {
        assert ds == prev + [c];
        forall i, j | 0 <= i < j < |ds|
          ensures ds[i] < ds[j]
        {
          assert ds[i] == prev[i];
          if j == |prev| {
            assert ds[i] in prev;
          } else {
            assert ds[j] == prev[j];
            assert prev[i] < prev[j];
          }
        }
      } else {
        assert ds == prev;
      }
      assert forall d :: d in ds ==> now < d <= c;
    }
  }

  /**
   * The date-generation loop of `scheduleNotificationsInBackground`. It
   * stops at 64 dates, after 1000 steps, or after the first candidate more
   * than a week ahead (which is still kept when it is not quiet).
   */
  method NextNotificationDates(now: Date, interval: int, quiet: Date -> bool) returns (dates: seq<Date>, loops: nat)
    ensures loops <= MaxLoops && |dates| <= MaxNotifications
    ensures dates == Unquiet(now, interval, quiet, loops)
    ensures |dates| == MaxNotifications || loops == MaxLoops || Candidate(now, interval, loops) - now > WeekSeconds
    ensures forall k :: 1 <= k < loops ==> Candidate(now, interval, k) - now <= WeekSeconds
  {
    dates := [];
    var currentTime := now;
    loops := 0;
    while |dates| < MaxNotifications && loops < MaxLoops
      invariant loops <= MaxLoops && |dates| <= MaxNotifications
      invariant currentTime == Candidate(now, interval, loops)
      invariant dates == Unquiet(now, interval, quiet, loops)
      invariant forall k :: 1 <= k <= loops ==> Candidate(now, interval, k) - now <= WeekSeconds
    {
      loops := loops + 1;
      currentTime := currentTime + interval * 60;
      if !quiet(currentTime) {
        dates := dates + [currentTime];
      }
      if currentTime - now > WeekSeconds {
        break;
      }
    }
  }

  /** A scheduled request: its identifier and the date it fires. */
  datatype Request = Request(identifier: string, fireDate: Date)

  function RequestId(index: nat): string
  {
    IdentifierPrefix + "." + Text.NatToDecimal(index)
  }

  /** Two indices never share an identifier. */
  lemma RequestIdInjective(i: nat, j: nat)
    requires RequestId(i) == RequestId(j)
    ensures i == j
  {
    var p := IdentifierPrefix + ".";
    assert RequestId(i)[|p|..] == Text.NatToDecimal(i);
    assert RequestId(j)[|p|..] == Text.NatToDecimal(j);
  }

  /** One request per date, numbered from 0 in date order. */
  function Requests(dates: seq<Date>, n: nat): (r: seq<Request>)
    requires n <= |dates|
    ensures |r| == n
    ensures forall i :: 0 <= i < n ==> r[i] == Request(RequestId(i), dates[i])
  {
    if n == 0 then [] else Requests(dates, n - 1) + [Request(RequestId(n - 1), dates[n - 1])]
  }

  /**
   * `scheduleNotificationsInBackground`: the requests it adds. Nothing is
   * added when the loop used up its 1000 steps or found no date.
   */
  method ScheduleInBackground(now: Date, interval: int, quietModeEnabled: bool, quietStart: Date, quietEnd: Date,
                              clock: Date -> (int, int)) returns (requests: seq<Request>)
    ensures |requests| <= MaxNotifications
    ensures forall i :: 0 <= i < |requests| ==> requests[i].identifier == RequestId(i)
    ensures forall i :: 0 <= i < |requests| ==>
      !IsInQuietModeWithParams(requests[i].fireDate, quietModeEnabled, quietStart, quietEnd, clock)
    ensures interval > 0 ==> forall i :: 0 <= i < |requests| ==> requests[i].fireDate > now
    ensures interval > 0 ==> forall i, j :: 0 <= i < j < |requests| ==> requests[i].fireDate < requests[j].fireDate
  {
    var quiet := d => IsInQuietModeWithParams(d, quietModeEnabled, quietStart, quietEnd, clock);
    var dates, loops := NextNotificationDates(now, interval, quiet);
    if loops >= MaxLoops || |dates| == 0 {
      return [];
    }
    UnquietAreCandidates(now, interval, quiet, loops);
    assert forall i :: 0 <= i < |dates| ==> !quiet(dates[i]);
    if interval > 0 {
      UnquietIncreasing(now, interval, quiet, loops);
      forall i | 0 <= i < |dates| ensures dates[i] > now {
        assert dates[i] in dates;
      }
    }
    requests := BuildRequests(dates);
    assert forall i :: 0 <= i < |requests| ==> requests[i] == Request(RequestId(i), dates[i]);
  }

  /** The request-building loop over the enumerated dates. */
  method BuildRequests(dates: seq<Date>) returns (requests: seq<Request>)
    ensures requests == Requests(dates, |dates|)
  {
    requests := [];
    for index := 0 to |dates|
      invariant requests == Requests(dates, index)
    {
      requests := requests + [Request(RequestId(index), dates[index])];
    }
  }

  class NotificationManager {
    var isNotificationEnabled: bool
    var notificationInterval: int
    var isQuietModeEnabled: bool
    var quietModeStartTime: Date
    var quietModeEndTime: Date

    /**
     * `init`: the fields start at their declared defaults (reminders and
     * quiet mode off, 30 minutes) and `loadSettings` then reads the stored
     * values over them.
     */
    constructor (storedEnabled: bool, storedInterval: int, storedQuiet: bool,
                 storedStart: Option<Date>, storedEnd: Option<Date>, clockTime: (int, int) -> Date)
      ensures notificationInterval == if storedInterval == 0 then DefaultInterval else storedInterval
      ensures isNotificationEnabled == storedEnabled && isQuietModeEnabled == storedQuiet
      ensures quietModeStartTime == storedStart.GetOr(clockTime(22, 0))
      ensures quietModeEndTime == storedEnd.GetOr(clockTime(7, 0))
    {
      isNotificationEnabled := false;
      notificationInterval := DefaultInterval;
      isQuietModeEnabled := false;
      quietModeStartTime := 0;
      quietModeEndTime := 0;
      new;
      LoadSettings(storedEnabled, storedInterval, storedQuiet, storedStart, storedEnd, clockTime);
    }

    /**
     * `loadSettings`: a missing or zero interval becomes 30 minutes; missing
     * quiet times become `clockTime(22, 0)` and `clockTime(7, 0)`, the dates
     * the calendar builds from hour and minute components alone (no day is
     * given; only the hour and minute are read back later).
     */
    method LoadSettings(storedEnabled: bool, storedInterval: int, storedQuiet: bool,
                        storedStart: Option<Date>, storedEnd: Option<Date>, clockTime: (int, int) -> Date)
      modifies this
      ensures notificationInterval != 0
      ensures notificationInterval == if storedInterval == 0 then DefaultInterval else storedInterval
      ensures isNotificationEnabled == storedEnabled && isQuietModeEnabled == storedQuiet
      ensures quietModeStartTime == storedStart.GetOr(clockTime(22, 0))
      ensures quietModeEndTime == storedEnd.GetOr(clockTime(7, 0))
    {
      isNotificationEnabled := storedEnabled;
      notificationInterval := storedInterval;
      if notificationInterval == 0 {
        notificationInterval := DefaultInterval;
      }
      isQuietModeEnabled := storedQuiet;
      quietModeStartTime := storedStart.GetOr(clockTime(22, 0));
      quietModeEndTime := storedEnd.GetOr(clockTime(7, 0));
    }

    /** `isInQuietMode`: the window test on the current settings. */
    function IsInQuietMode(date: Date, clock: Date -> (int, int)): (b: bool)
      reads this
      ensures b ==> isQuietModeEnabled
      ensures b <==> IsInQuietModeWithParams(date, isQuietModeEnabled, quietModeStartTime, quietModeEndTime, clock)
    {
      if !isQuietModeEnabled then false
      else IsInQuietModeWithParams(date, isQuietModeEnabled, quietModeStartTime, quietModeEndTime, clock)
    }

    /** `scheduleNotifications`: nothing is scheduled while reminders are off. */
    method ScheduleNotifications(now: Date, clock: Date -> (int, int)) returns (requests: seq<Request>)
      ensures !isNotificationEnabled ==> requests == []
      ensures |requests| <= MaxNotifications
      ensures forall i :: 0 <= i < |requests| ==> !IsInQuietMode(requests[i].fireDate, clock)
    {
      if !isNotificationEnabled {
        return [];
      }
      requests := ScheduleInBackground(now, notificationInterval, isQuietModeEnabled, quietModeStartTime,
                                       quietModeEndTime, clock);
    }
  }
}
