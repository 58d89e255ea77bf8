// The sedation timer: the seconds counted since the start, whether the
// one-second interval is set and whether the five-minute observation reminder
// is showing. Each firing of the interval is one `Tick`; the HH:MM:SS display
// it writes is `ClockText` of the new count, kept by the page beside this
// state. The wall clock is not part of the model.
module Timer {
  import opened Text

  datatype TimerState = TimerState(seconds: int, running: bool, reminder: bool)

  /** The display for `seconds`: the time of day that many seconds after midnight UTC,
      as `toISOString().substr(11, 8)` prints it, so it wraps every 24 hours. */
  function ClockText(seconds: int): string
  {
    var s := seconds % 86400;
    DayParts(s);
    Pad2(s / 3600) + ":" + Pad2(s % 3600 / 60) + ":" + Pad2(s % 60)
  }

  /** The display reads back as hours, minutes and seconds that add up to the
      count modulo one day. */
  lemma ClockTextValue(seconds: int)
    ensures var r := ClockText(seconds);
      && |r| == 8 && r[2] == ':' && r[5] == ':'
      && DigitsValue(r[..2]) < 24 && DigitsValue(r[3..5]) < 60 && DigitsValue(r[6..]) < 60
      && DigitsValue(r[..2]) * 3600 + DigitsValue(r[3..5]) * 60 + DigitsValue(r[6..]) == seconds % 86400
  {
    var s := seconds % 86400;
    DayParts(s);
    var a, b, c := Pad2(s / 3600), Pad2(s % 3600 / 60), Pad2(s % 60);
    Pad2Value(s / 3600);
    Pad2Value(s % 3600 / 60);
    Pad2Value(s % 60);
    ClockSlices(a, b, c);
  }

  /** Hours, minutes and seconds of a second of the day. */
  lemma DayParts(s: int)
    requires 0 <= s < 86400
    ensures s / 3600 < 24 && s % 3600 / 60 < 60 && s % 60 < 60
    ensures s / 3600 * 3600 + s % 3600 / 60 * 60 + s % 60 == s
  {
    var h, rest := s / 3600, s % 3600;
    assert s == h * 3600 + rest;
    var m, sec := rest / 60, rest % 60;
    assert rest == m * 60 + sec;
    assert s % 60 == sec by {
      assert s == (h * 60 + m) * 60 + sec;
    }
  }

  lemma ClockSlices(a: string, b: string, c: string)
    requires |a| == 2 && |b| == 2 && |c| == 2
    ensures var r := a + ":" + b + ":" + c;
      |r| == 8 && r[2] == ':' && r[5] == ':' && r[..2] == a && r[3..5] == b && r[6..] == c
  {
  }

  /** One firing of the interval: one more second, and the reminder raised when the count
      reaches a multiple of five minutes (it is never lowered here). */
  function Tick(t: TimerState): (r: TimerState)
    requires t.running
    ensures r.running && r.seconds == t.seconds + 1
    ensures r.reminder <==> t.reminder || r.seconds % 300 == 0
  {
    var s := t.seconds + 1;
    TimerState(s, true, t.reminder || s % 300 == 0)
  }

  /** `n` firings of the interval. */
  function Ticks(t: TimerState, n: nat): (r: TimerState)
    requires t.running
    ensures r.running
    decreases n
  {
    if n == 0 then t else Tick(Ticks(t, n - 1))
  }

  /** After `n` firings the reminder shows exactly when it showed before or a multiple
      of five minutes was reached on the way. */
  lemma TicksEffect(t: TimerState, n: nat)
    requires t.running
    ensures Ticks(t, n).seconds == t.seconds + n
    ensures Ticks(t, n).reminder <==> t.reminder || (t.seconds + n) / 300 > t.seconds / 300
  {
    TicksReminder(t, n);
    RaisedWithin(t.reminder, t.seconds, n);
  }

  /** Whether the reminder shows after the counts `s0 + 1` .. `s0 + n`, having been `shown`. */
  ghost function RaisedAfter(shown: bool, s0: int, n: nat): bool
    decreases n
  {
    if n == 0 then shown else RaisedAfter(shown, s0, n - 1) || (s0 + n) % 300 == 0
  }

  lemma {:induction false} TicksReminder(t: TimerState, n: nat)
    requires t.running
    ensures Ticks(t, n).seconds == t.seconds + n
    ensures Ticks(t, n).reminder == RaisedAfter(t.reminder, t.seconds, n)
    decreases n
  {
    if n > 0 {
      TicksReminder(t, n - 1);
    }
  }

  lemma {:induction false} RaisedWithin(shown: bool, s0: int, n: nat)
    ensures RaisedAfter(shown, s0, n) <==> shown || (s0 + n) / 300 > s0 / 300
    decreases n
  {
    if n > 0 {
      RaisedWithin(shown, s0, n - 1);
      MultipleStep(s0 + n);
      PeriodsMonotone(s0, s0 + n - 1);
    }
  }

  /** A count reaches a multiple of five minutes exactly when its number of whole
      five-minute periods goes up. */
  lemma MultipleStep(s: int)
    ensures s % 300 == 0 <==> s / 300 > (s - 1) / 300
    ensures s / 300 == (s - 1) / 300 || s / 300 == (s - 1) / 300 + 1
  {
    var q, r := (s - 1) / 300, (s - 1) % 300;
    assert s - 1 == 300 * q + r;
    if r == 299 {
      assert s == 300 * (q + 1);
    } else {
      assert s == 300 * q + (r + 1);
    }
  }

  /** Whole five-minute periods never decrease as the count grows. */
  lemma PeriodsMonotone(x: int, y: int)
    requires x <= y
    ensures x / 300 <= y / 300
  {
    var qx, qy := x / 300, y / 300;
    assert x == 300 * qx + x % 300;
    assert y == 300 * qy + y % 300;
  }

  /** Started from zero with no reminder, the reminder first shows after five minutes. */
  lemma FirstReminder(t: TimerState, n: nat)
    requires t.running && t.seconds == 0 && !t.reminder
    ensures Ticks(t, n).reminder <==> n >= 300
  {
    TicksEffect(t, n);
  }

  /** `stopTimer`: the interval cleared and the reminder hidden; the count stays. */
  function Stop(t: TimerState): (r: TimerState)
    ensures !r.running && !r.reminder
    ensures r.seconds == t.seconds
  {
    TimerState(t.seconds, false, false)
  }

  /** The reminder's dismiss button: hides the reminder and nothing else. */
  function Dismiss(t: TimerState): (r: TimerState)
    ensures !r.reminder
    ensures r.seconds == t.seconds && r.running == t.running
  {
    t.(reminder := false)
  }

  /** `startTimer` seeds an observation row only when no second has been counted yet. */
  predicate SeedsObsRow(t: TimerState)
  {
    t.seconds == 0
  }

  /** `startTimer`'s effect on the timer: the interval is set. */
  function Start(t: TimerState): (r: TimerState)
    ensures r.running
    ensures r.seconds == t.seconds && r.reminder == t.reminder
  {
    t.(running := true)
  }

  /** The timer button's choice: a running timer is stopped; a stopped one starts when all
      four time-out checks are ticked or the user confirms the warning, and otherwise
      nothing happens. */
  datatype ButtonAction = StopTimer | StartTimer | Refuse

  function TimerButton(t: TimerState, timeOutDone: bool, confirmed: bool): (a: ButtonAction)
    ensures a == StopTimer <==> t.running
    ensures a == Refuse <==> !t.running && !timeOutDone && !confirmed
  {
    if t.running then StopTimer
    else if !timeOutDone && !confirmed then Refuse
    else StartTimer
  }

  /** A timer that has run and been stopped does not seed another row when restarted,
      and resumes the count where it stopped. */
  lemma RestartSeedsNoRow(t: TimerState, n: nat)
    requires t.running && t.seconds >= 0 && n > 0
    ensures !SeedsObsRow(Start(Stop(Ticks(t, n))))
    ensures Start(Stop(Ticks(t, n))).seconds == t.seconds + n
  {
    TicksEffect(t, n);
  }
}
