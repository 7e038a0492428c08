/**
  What a timer update hands to the side-effect ports: the cue looked up in
  the sound map, the one-line status text `stage<i>/MM:SS` or
  `transit<i>/MM:SS`, and the write-failure latch that logs a sustained
  outage once.
 */
module Status {
  import opened Wrappers
  import opened JsString

  /** A call into one of the engine's ports, recorded as an output. */
  datatype PortCall =
    | PlaySound(file: string)
    | WriteStatus(line: string)
    | SaveState(roundName: string, roundState: int, remainingTime: int)

  /** The sound map of helpers/config.js. */
  const FiveSecondsCue := "/static/sounds/5beeps-boop.mp3"
  const OneMinuteCue := "/static/sounds/beep.mp3"
  const BoopCue := "/static/sounds/boop.mp3"

  /** `soundMap[time]` for a numeric time: only 5 and 60 seconds have a cue. */
  function CueFor(time: int): (cue: Option<string>)
    ensures cue.Some? <==> time == 5 || time == 60
    ensures time == 5 ==> cue == Some(FiveSecondsCue)
    ensures time == 60 ==> cue == Some(OneMinuteCue)
  {
    if time == 5 then Some(FiveSecondsCue)
    else if time == 60 then Some(OneMinuteCue)
    else None
  }

  /** `Math.floor(time % 60)`: JavaScript's remainder takes the sign of the dividend. */
  function JsRem60(time: int): (r: int)
    ensures time >= 0 ==> r == time % 60
    ensures time >= 0 ==> r >= 0
    ensures time < 0 ==> r <= 0
    ensures -60 < r < 60 && (time - r) % 60 == 0
  {
    if time >= 0 then time % 60 else -((-time) % 60)
  }

  /** `MM:SS` with `MM = floor(time / 60)` and `SS = time % 60`, each padded to two digits. */
  function FormatTime(time: int): string {
    PadStart2(IntToString(time / 60)) + ":" + PadStart2(IntToString(JsRem60(time)))
  }

  /** The status line: `transit<roundState + 1>/MM:SS` between rounds, `stage<roundState>/MM:SS` otherwise. */
  function StatusLine(betweenRounds: bool, roundState: int, time: int): string {
    Head(betweenRounds, roundState) + "/" + FormatTime(time)
  }

  /** Some call plays a sound. */
  predicate PlaysCue(calls: seq<PortCall>) {
    exists i :: 0 <= i < |calls| && calls[i].PlaySound?
  }

  /**
    The port calls of `_timerUpdateEmit(time)`: a zero time writes nothing and
    plays nothing; otherwise the cue for that second, if any, then the status line.
   */
  function TimerUpdateCalls(time: int, betweenRounds: bool, roundState: int): seq<PortCall> {
    if time == 0 then []
    else
      var cue := match CueFor(time)
                 case Some(file) => [PlaySound(file)]
                 case None => [];
      cue + [WriteStatus(StatusLine(betweenRounds, roundState, time))]
  }

  /** A non-zero second always ends in the status write, and plays a sound exactly at 5 and 60. */
  lemma TimerUpdateShape(time: int, betweenRounds: bool, roundState: int)
    ensures var calls := TimerUpdateCalls(time, betweenRounds, roundState);
      && (calls == [] <==> time == 0)
      && (time != 0 ==> calls[|calls| - 1] == WriteStatus(StatusLine(betweenRounds, roundState, time)))
      && (PlaysCue(calls) <==> time == 5 || time == 60)
  {
    var calls := TimerUpdateCalls(time, betweenRounds, roundState);
    if CueFor(time).Some? {
      assert calls[0].PlaySound?;
    }
  }

  // ---------------------------------------------------------------- reading a status line back

  /** Reads `MM:SS` back into seconds. */
  function ParseTime(text: string): Option<int> {
    var parts := Split(text, ':');
    if |parts| != 2 then None
    else
      match (ParseNat(parts[0]), ParseNat(parts[1]))
      case (Some(m), Some(sec)) => Some(60 * m + sec)
      case _ => None
  }

  datatype StatusInfo = StatusInfo(transit: bool, index: int, time: int)

  /** Reads a status line back into its phase, its shown index and its time. */
  function ParseStatusLine(line: string): Option<StatusInfo> {
    var parts := Split(line, '/');
    if |parts| != 2 then None
    else
      var head := parts[0];
      var transit := |head| >= 7 && head[..7] == "transit";
      var index :=
        if transit then ParseInt(head[7..])
        else if |head| >= 5 && head[..5] == "stage" then ParseInt(head[5..])
        else None;
      match (index, ParseTime(parts[1]))
      case (Some(i), Some(t)) => Some(StatusInfo(transit, i, t))
      case _ => None
  }

  lemma PaddedFree(n: nat, c: char)
    requires !IsDigit(c)
    ensures Free(PadStart2(NatToString(n)), c)
  {
    PaddedNatValue(n);
  }

  lemma IntToStringFree(i: int, c: char)
    requires !IsDigit(c) && c != '-'
    ensures Free(IntToString(i), c)
  {
  }

  /** For a non-negative time the text is the padded minutes, a colon, and the padded seconds. */
  lemma FormatNonNegative(time: int)
    requires time >= 0
    ensures FormatTime(time) == Join([PadStart2(NatToString(time / 60)), PadStart2(NatToString(time % 60))], ':')
  {
  }

  /** `MM:SS` read back gives the time, and below 100 minutes it is exactly five characters. */
  lemma FormatTimeRoundTrip(time: int)
    requires time >= 0
    ensures ParseTime(FormatTime(time)) == Some(time)
    ensures time < 6000 ==> |FormatTime(time)| == 5
  {
    var mm, ss := PadStart2(NatToString(time / 60)), PadStart2(NatToString(time % 60));
    FormatNonNegative(time);
    PaddedNatValue(time / 60);
    PaddedNatValue(time % 60);
    PaddedFree(time / 60, ':');
    PaddedFree(time % 60, ':');
    SplitJoin([mm, ss], ':');
  }

  lemma FormatTimeFree(time: int)
    requires time >= 0
    ensures Free(FormatTime(time), '/')
  {
    PaddedFree(time / 60, '/');
    PaddedFree(time % 60, '/');
  }

  /** The text before the slash: the phase word and the shown index. */
  function Head(betweenRounds: bool, roundState: int): string {
    if betweenRounds then "transit" + IntToString(roundState + 1) else "stage" + IntToString(roundState)
  }

  lemma HeadParses(betweenRounds: bool, roundState: int)
    ensures Free(Head(betweenRounds, roundState), '/')
    ensures var head := Head(betweenRounds, roundState);
            && (|head| >= 7 && head[..7] == "transit" <==> betweenRounds)
            && (betweenRounds ==> ParseInt(head[7..]) == Some(roundState + 1))
            && (!betweenRounds ==> |head| >= 5 && head[..5] == "stage" && ParseInt(head[5..]) == Some(roundState))
  {
    var shown := if betweenRounds then roundState + 1 else roundState;
    var phase := if betweenRounds then "transit" else "stage";
    var head := Head(betweenRounds, roundState);
    assert head == phase + IntToString(shown);
    IntToStringFree(shown, '/');
    assert head[|phase|..] == IntToString(shown);
    ParseIntToString(shown);
    if !betweenRounds {
      assert head[0] == 's';
    }
  }

  lemma StatusLineSplits(betweenRounds: bool, roundState: int, time: int)
    requires time >= 0
    ensures Split(StatusLine(betweenRounds, roundState, time), '/') == [Head(betweenRounds, roundState), FormatTime(time)]
  {
    var head := Head(betweenRounds, roundState);
    HeadParses(betweenRounds, roundState);
    FormatTimeFree(time);
    assert StatusLine(betweenRounds, roundState, time) == Join([head, FormatTime(time)], '/');
    SplitJoin([head, FormatTime(time)], '/');
  }

  /** The status line read back gives its phase, the shown index and the time. */
  lemma StatusLineRoundTrip(betweenRounds: bool, roundState: int, time: int)
    requires time >= 0
    ensures ParseStatusLine(StatusLine(betweenRounds, roundState, time)) ==
            Some(StatusInfo(betweenRounds, if betweenRounds then roundState + 1 else roundState, time))
  {
    StatusLineSplits(betweenRounds, roundState, time);
    HeadParses(betweenRounds, roundState);
    FormatTimeRoundTrip(time);
  }

  // ---------------------------------------------------------------- the write-failure latch

  /** One completed status write: `(new flag, logged)`. A failure is logged only when the latch is clear. */
  function LatchStep(latched: bool, failed: bool): (r: (bool, bool))
    ensures r.0 == failed
    ensures r.1 <==> failed && !latched
  {
    if failed && !latched then (true, true)
    else if !failed then (false, false)
    else (latched, false)
  }

  /** A run of completed writes, in completion order: `(final flag, number of errors logged)`. */
  function LatchRun(latched: bool, failures: seq<bool>): (bool, nat)
    decreases |failures|
  {
    if failures == [] then (latched, 0)
    else
      var (next, logged) := LatchStep(latched, failures[0]);
      var (final, count) := LatchRun(next, failures[1..]);
      (final, count + if logged then 1 else 0)
  }

  function Successes(failures: seq<bool>): nat {
    if failures == [] then 0 else Successes(failures[1..]) + if failures[0] then 0 else 1
  }

  /** After at least one write the latch reflects the last write only. */
  lemma {:induction false} LatchFollowsLastWrite(latched: bool, failures: seq<bool>)
    requires failures != []
    ensures LatchRun(latched, failures).0 == failures[|failures| - 1]
    decreases |failures|
  {
    if |failures| > 1 {
      LatchFollowsLastWrite(LatchStep(latched, failures[0]).0, failures[1..]);
    }
  }

  /** A sustained outage is logged once, and not at all if the latch was already set. */
  lemma {:induction false} OutageLoggedOnce(latched: bool, failures: seq<bool>)
    requires forall i :: 0 <= i < |failures| ==> failures[i]
    ensures LatchRun(latched, failures).1 == if latched || failures == [] then 0 else 1
    decreases |failures|
  {
    if failures != [] {
      OutageLoggedOnce(true, failures[1..]);
    }
  }

  /** Every logged error after the first needs a successful write in between. */
  lemma {:induction false} LogsBoundedBySuccesses(latched: bool, failures: seq<bool>)
    ensures LatchRun(latched, failures).1 <= (if latched then 0 else 1) + Successes(failures)
    decreases |failures|
  {
    if failures != [] {
      LogsBoundedBySuccesses(LatchStep(latched, failures[0]).0, failures[1..]);
    }
  }
}
