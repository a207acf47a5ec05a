/** Console centring, the random pause, and the retry decorator. The random
    draw is a given number; the pause itself is only recorded. */
module Helpers {
  import opened Exceptions
  import opened Wrappers
  import opened Text
  import Settings

  function Spaces(n: nat): (r: string)
    ensures |r| == n && forall i :: 0 <= i < n ==> r[i] == ' '
  {
    if n == 0 then "" else " " + Spaces(n - 1)
  }

  /** `f"{message:^80}"` for any width: the message padded with spaces to
      the width, half the padding (rounded down) on the left. */
  function Center(message: string, width: nat): (r: string)
    ensures |r| == if |message| >= width then |message| else width
    ensures var left := if |message| >= width then 0 else (width - |message|) / 2;
      && r[left..left + |message|] == message
      && (forall i :: 0 <= i < left ==> r[i] == ' ')
      && (forall i :: left + |message| <= i < |r| ==> r[i] == ' ')
      && |r| - (left + |message|) - left in {0, 1}
  {
    if |message| >= width then message
    else
      var pad := width - |message|;
      var r := Spaces(pad / 2) + message + Spaces(pad - pad / 2);
      assert r[pad / 2..pad / 2 + |message|] == message;
      r
  }

  /** `format_output`: the line printed, centred in 80 columns. */
  function FormatOutput(message: string): (r: string)
    ensures |message| <= 80 ==> |r| == 80
    ensures |message| > 80 ==> r == message
  {
    Center(message, 80)
  }

  /** One pause: its length in seconds and the line logged before it. */
  datatype Sleep = Sleep(secs: int, line: string)

  /** `random.randint(lo, hi)` fed with the draw `draw`. */
  function RandInt(lo: int, hi: int, draw: nat): (r: Result<int>)
    ensures r.Ok? <==> lo <= hi
    ensures r.Err? ==> r.error == ValueError
    ensures r.Ok? ==> lo <= r.value <= hi
  {
    if lo > hi then Err(ValueError) else Ok(lo + draw % (hi - lo + 1))
  }

  /** Every value of the range is drawn by some draw. */
  lemma RandIntReachesEveryValue(lo: int, hi: int, v: int)
    requires lo <= v <= hi
    ensures RandInt(lo, hi, (v - lo) as nat) == Ok(v)
  {
  }

  /** `delay`: a whole number of seconds in `[sleep_from, sleep_to]`, logged
      with the message; an empty range raises ValueError. */
  function Delay(sleepFrom: int, sleepTo: int, message: string, draw: nat): (r: Result<Sleep>)
    ensures r.Ok? <==> sleepFrom <= sleepTo
    ensures r.Err? ==> r.error == ValueError
    ensures r.Ok? ==> sleepFrom <= r.value.secs <= sleepTo
    ensures r.Ok? ==> r.value.line == "Sleeping for " + IntToString(r.value.secs) + " seconds: " + message
  {
    var secs :- RandInt(sleepFrom, sleepTo, draw);
    Ok(Sleep(secs, "Sleeping for " + IntToString(secs) + " seconds: " + message))
  }

  /** The pause between retries: 10 to 60 seconds, naming the retry. */
  function RetryPause(retry: int, draw: nat): (s: Sleep)
    ensures 10 <= s.secs <= 60
  {
    Delay(10, 60, "One more retry: " + IntToString(retry) + "/" + IntToString(Settings.RetryCount), draw).value
  }

  /** The first successful call among calls `from`, `from + 1`, ... below
      `Settings.RetryCount`. */
  function FirstSuccess<T>(attempt: nat -> Result<T>, from: nat): Option<T>
    decreases Settings.RetryCount - from
  {
    if from >= Settings.RetryCount then None
    else if attempt(from).Ok? then Some(attempt(from).value)
    else FirstSuccess(attempt, from + 1)
  }

  /** `retry(func)`: call `func` up to `RETRY_COUNT` times, returning the
      first result it produces; after each exception pause with a retry
      note. When every call fails the wrapper returns None. Call `i`
      (counting from 0) answers `attempt(i)`; pause `i` draws `draws(i)`. */
  method Retry<T>(attempt: nat -> Result<T>, draws: nat -> nat) returns (r: Option<T>, pauses: seq<Sleep>, calls: nat)
    ensures r == FirstSuccess(attempt, 0)
    ensures calls <= Settings.RetryCount
    ensures calls == |pauses| + (if r.Some? then 1 else 0)
    ensures forall i :: 0 <= i < |pauses| ==> attempt(i).Err? && pauses[i] == RetryPause(i + 1, draws(i))
    ensures r.Some? ==> |pauses| < Settings.RetryCount && attempt(|pauses|) == Ok(r.value)
    ensures r.None? ==> |pauses| == Settings.RetryCount
  {
    var retries := 1;
    pauses := [];
    calls := 0;
    while retries <= Settings.RetryCount
      invariant 1 <= retries <= Settings.RetryCount + 1
      invariant |pauses| == retries - 1 == calls
      invariant forall i :: 0 <= i < |pauses| ==> attempt(i).Err? && pauses[i] == RetryPause(i + 1, draws(i))
      invariant FirstSuccess(attempt, 0) == FirstSuccess(attempt, retries - 1)
    {
      var result := attempt(retries - 1);
      calls := calls + 1;
      if result.Ok? {
        return Some(result.value), pauses, calls;
      }
      pauses := pauses + [RetryPause(retries, draws(retries - 1))];
      retries := retries + 1;
    }
    r := None;
  }

  /** Three failing calls leave the wrapper with nothing to return. */
  lemma AllFailingCallsGiveNone<T>(attempt: nat -> Result<T>)
    requires forall i :: 0 <= i < Settings.RetryCount ==> attempt(i).Err?
    ensures FirstSuccess(attempt, 0).None?
  {
    assert attempt(0).Err? && attempt(1).Err? && attempt(2).Err?;
  }
}
