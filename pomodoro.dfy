/** The pomodoro timer of lib/hooks/use-pomodoro.ts. The hook's `state` and
    `durations` become the fields of a `PomodoroTimer` object; each callback
    applies the same record transform as the hook's `setState` updater. The
    one-second interval, the completion callback, browser storage and the
    widget position and size are not modelled. */
module Pomodoro {
  import opened Wrappers

  datatype SessionType = Work | ShortBreak | LongBreak

  /** Session lengths in seconds. */
  datatype Durations = Durations(work: nat, shortBreak: nat, longBreak: nat)
  {
    /** `durations[type]`. */
    function Of(t: SessionType): nat
    {
      match t
      case Work => work
      case ShortBreak => shortBreak
      case LongBreak => longBreak
    }
  }

  /** The persisted timer record. */
  datatype PomodoroState = PomodoroState(sessionType: SessionType, timeRemaining: nat, isRunning: bool, sessionCount: nat)

  /** Twenty-five, five and fifteen minutes. */
  const DefaultDurations: Durations := Durations(25 * 60, 5 * 60, 15 * 60)

  /** A stopped work session with the full default work time and no sessions done. */
  const DefaultState: PomodoroState := PomodoroState(Work, DefaultDurations.work, false, 0)

  // ---------------------------------------------------------------------
  // The updaters passed to setState, as functions of the previous state.

  /** One second off, or a stop at zero when at most one second is left;
      the session type and count are never touched. */
  function TickUpdate(prev: PomodoroState): (next: PomodoroState)
    ensures next.sessionType == prev.sessionType && next.sessionCount == prev.sessionCount
    ensures prev.timeRemaining > 1 ==> next.timeRemaining == prev.timeRemaining - 1 && next.isRunning == prev.isRunning
    ensures prev.timeRemaining <= 1 ==> next.timeRemaining == 0 && !next.isRunning
  {
    if prev.timeRemaining <= 1 then prev.(timeRemaining := 0, isRunning := false)
    else prev.(timeRemaining := prev.timeRemaining - 1)
  }

  /** After work comes a break, a long one when the new count is a multiple
      of four; after a break comes work. */
  function SkipUpdate(prev: PomodoroState, durations: Durations): (next: PomodoroState)
    ensures (prev.sessionType == Work) != (next.sessionType == Work)
    ensures next.sessionCount == prev.sessionCount + (if prev.sessionType == Work then 1 else 0)
    ensures next.sessionType == LongBreak <==> prev.sessionType == Work && next.sessionCount % 4 == 0
    ensures !next.isRunning && next.timeRemaining == durations.Of(next.sessionType)
  {
    var newCount := if prev.sessionType == Work then prev.sessionCount + 1 else prev.sessionCount;
    var next :=
      if prev.sessionType == Work then (if newCount % 4 == 0 then LongBreak else ShortBreak)
      else Work;
    PomodoroState(next, durations.Of(next), false, newCount)
  }

  /** The hook: the timer record and the configured durations. */
  class PomodoroTimer {
    var state: PomodoroState
    var durations: Durations

    constructor ()
      ensures state == DefaultState && durations == DefaultDurations
    {
      state := DefaultState;
      durations := DefaultDurations;
    }

    /** One firing of the one-second interval. `completed` is whether the
        completion callback is called: the time ran out, the timer stops at
        zero and stays on the same session. */
    method Tick() returns (completed: bool)
      modifies this
      ensures completed == (old(state).timeRemaining <= 1)
      ensures old(state).timeRemaining > 1 ==>
                state == old(state).(timeRemaining := old(state).timeRemaining - 1)
      ensures old(state).timeRemaining <= 1 ==>
                state == old(state).(timeRemaining := 0, isRunning := false)
      ensures state.sessionType == old(state).sessionType && state.sessionCount == old(state).sessionCount
      ensures durations == old(durations)
    {
      completed := state.timeRemaining <= 1;
      state := TickUpdate(state);
    }

    method Start()
      modifies this
      ensures state == old(state).(isRunning := true)
      ensures durations == old(durations)
    {
      state := state.(isRunning := true);
    }

    method Pause()
      modifies this
      ensures state == old(state).(isRunning := false)
      ensures durations == old(durations)
    {
      state := state.(isRunning := false);
    }

    /** Restart the current session from its full length, stopped. */
    method Reset()
      modifies this
      ensures state == old(state).(timeRemaining := durations.Of(old(state).sessionType), isRunning := false)
      ensures durations == old(durations)
    {
      state := state.(timeRemaining := durations.Of(state.sessionType), isRunning := false);
    }

    /** Move on to the next session without waiting for the time to run out. */
    method Skip()
      modifies this
      ensures old(state).sessionType == Work ==>
                && state.sessionCount == old(state).sessionCount + 1
                && state.sessionType == (if state.sessionCount % 4 == 0 then LongBreak else ShortBreak)
      ensures old(state).sessionType != Work ==>
                state.sessionType == Work && state.sessionCount == old(state).sessionCount
      ensures !state.isRunning && state.timeRemaining == durations.Of(state.sessionType)
      ensures durations == old(durations)
      ensures state == SkipUpdate(old(state), durations)
    {
      state := SkipUpdate(state, durations);
    }

    /** New session lengths; the current session's remaining time becomes
        its new full length, whether or not the timer is running. */
    method UpdateDurations(newDurations: Durations)
      modifies this
      ensures durations == newDurations
      ensures state == old(state).(timeRemaining := newDurations.Of(old(state).sessionType))
    {
      durations := newDurations;
      state := state.(timeRemaining := newDurations.Of(state.sessionType));
    }
  }

  // ---------------------------------------------------------------------
  // Runs of transitions.

  /** `n` firings of the interval. */
  function Ticks(s: PomodoroState, n: nat): PomodoroState
    decreases n
  {
    if n == 0 then s else TickUpdate(Ticks(s, n - 1))
  }

  /** While time is left, each tick takes exactly one second off and the
      timer keeps running. */
  lemma {:induction false} TicksCountDown(s: PomodoroState, n: nat)
    requires n < s.timeRemaining
    ensures Ticks(s, n) == s.(timeRemaining := s.timeRemaining - n)
    decreases n
  {
    if n > 0 {
      TicksCountDown(s, n - 1);
    }
  }

  /** A session of `t >= 1` seconds ends after exactly `t` ticks, stopped at
      zero on the same session: there is no automatic advance. */
  lemma TicksComplete(s: PomodoroState)
    requires s.timeRemaining >= 1
    ensures Ticks(s, s.timeRemaining) == s.(timeRemaining := 0, isRunning := false)
  {
    TicksCountDown(s, s.timeRemaining - 1);
  }

  /** `n` consecutive skips with fixed durations. */
  function Skips(s: PomodoroState, d: Durations, n: nat): PomodoroState
    decreases n
  {
    if n == 0 then s else SkipUpdate(Skips(s, d, n - 1), d)
  }

  /** Skipping from a work session alternates breaks and work; the `k`-th
      break (counting from one) is long exactly when the completed-session
      count reaches a multiple of four, and the count never decreases. */
  lemma {:induction false} SkipsAlternate(s: PomodoroState, d: Durations, n: nat)
    requires s.sessionType == Work
    ensures var t := Skips(s, d, n);
            && t.sessionCount == s.sessionCount + (n + 1) / 2
            && (n % 2 == 0 <==> t.sessionType == Work)
            && (n % 2 == 1 ==> (t.sessionType == LongBreak <==> t.sessionCount % 4 == 0))
    decreases n
  {
    if n > 0 {
      SkipsAlternate(s, d, n - 1);
    }
  }

  /** From the default state, the fourth completed work session is followed
      by the first long break. */
  lemma FirstLongBreakAfterFourWorkSessions()
    ensures Skips(DefaultState, DefaultDurations, 7) ==
              PomodoroState(LongBreak, 15 * 60, false, 4)
    ensures forall n :: 0 <= n < 7 ==> Skips(DefaultState, DefaultDurations, n).sessionType != LongBreak
  {
    forall n | 0 <= n < 7
      ensures Skips(DefaultState, DefaultDurations, n).sessionType != LongBreak
    {
      SkipsAlternate(DefaultState, DefaultDurations, n);
    }
    SkipsAlternate(DefaultState, DefaultDurations, 7);
  }

  // ---------------------------------------------------------------------
  // formatTime and its inverse.

  function DigitChar(n: nat): char
    requires n < 10
  {
    "0123456789"[n]
  }

  predicate IsDigit(c: char)
  {
    '0' <= c <= '9'
  }

  predicate AllDigits(s: string)
  {
    forall i :: 0 <= i < |s| ==> IsDigit(s[i])
  }

  /** `n.toString()` for a non-negative integer: decimal, no leading zeros. */
  function NatToString(n: nat): (s: string)
    ensures 1 <= |s| && AllDigits(s)
    ensures n < 10 ==> |s| == 1
    ensures 10 <= n < 100 ==> |s| == 2
    ensures s[0] == '0' <==> n == 0
    decreases n
  {
    if n < 10 then [DigitChar(n)] else NatToString(n / 10) + [DigitChar(n % 10)]
  }

  /** `s.padStart(2, "0")`. */
  function PadStart2(s: string): (r: string)
    ensures |r| == if |s| < 2 then 2 else |s|
    ensures |s| >= 2 ==> r == s
    ensures |s| < 2 ==> r == seq(2 - |s|, _ => '0') + s
  {
    if |s| == 0 then "00" else if |s| == 1 then "0" + s else s
  }

  /** `formatTime`: zero-padded whole minutes, a colon, zero-padded seconds. */
  function FormatTime(seconds: nat): (s: string)
    ensures seconds < 6000 ==> |s| == 5
    ensures |s| >= 5 && s[|s| - 3] == ':'
    ensures seconds >= 600 ==> s[0] != '0'
  {
    PadStart2(NatToString(seconds / 60)) + ":" + PadStart2(NatToString(seconds % 60))
  }

  /** The value of a string of decimal digits. */
  function DigitsValue(s: string): nat
    requires AllDigits(s)
    decreases |s|
  {
    if s == [] then 0
    else
      var last := s[|s| - 1];
      assert IsDigit(last);
      DigitsValue(s[..|s| - 1]) * 10 + (last as int - '0' as int)
  }

  /** Reading back a displayed time "mm:ss": at least two minute digits, two
      second digits below 60. */
  function ParseTime(s: string): (r: Option<nat>)
  {
    if |s| < 5 || s[|s| - 3] != ':' then None
    else
      var mins, secs := s[..|s| - 3], s[|s| - 2..];
      if AllDigits(mins) && AllDigits(secs) && DigitsValue(secs) < 60
      then Some(DigitsValue(mins) * 60 + DigitsValue(secs))
      else None
  }

  lemma {:induction false} NatToStringValue(n: nat)
    ensures DigitsValue(NatToString(n)) == n
    decreases n
  {
    if n >= 10 {
      var s := NatToString(n);
      assert s[..|s| - 1] == NatToString(n / 10);
      NatToStringValue(n / 10);
    }
  }

  lemma PadKeepsValue(s: string)
    requires 1 <= |s| && AllDigits(s)
    ensures AllDigits(PadStart2(s)) && DigitsValue(PadStart2(s)) == DigitsValue(s)
  {
    if |s| == 1 {
      var p := "0" + s;
      assert p[..1] == "0";
      assert ("0")[..0] == [];
    }
  }

  /** A well-formed "mm:ss" text reads back as minutes * 60 + seconds. */
  lemma ParseTimeOf(mm: string, ss: string)
    requires |mm| >= 2 && AllDigits(mm)
    requires |ss| == 2 && AllDigits(ss)
    requires DigitsValue(ss) < 60
    ensures ParseTime(mm + ":" + ss) == Some(DigitsValue(mm) * 60 + DigitsValue(ss))
  {
    SplitAtColon(mm, ss);
  }

  /** "mm:ss" splits back into its minute and second parts. */
  lemma SplitAtColon(mm: string, ss: string)
    requires |ss| == 2
    ensures var s := mm + ":" + ss;
            && |s| == |mm| + 3 && s[|s| - 3] == ':'
            && s[..|s| - 3] == mm && s[|s| - 2..] == ss
  {
    var s := mm + ":" + ss;
    assert s[..|s| - 3] == mm;
    assert s[|s| - 2..] == ss;
  }

  /** `formatTime` loses nothing: the displayed text reads back as the same
      number of seconds. */
  lemma FormatTimeRoundTrip(seconds: nat)
    ensures ParseTime(FormatTime(seconds)) == Some(seconds)
  {
    var m, sec := NatToString(seconds / 60), NatToString(seconds % 60);
    NatToStringValue(seconds / 60);
    NatToStringValue(seconds % 60);
    PadKeepsValue(m);
    PadKeepsValue(sec);
    ParseTimeOf(PadStart2(m), PadStart2(sec));
  }
}
