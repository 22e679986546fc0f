/** The run-time schedule: `gen_times_to_run` and its generator `perdelta`.
    Time is measured in whole hours; a timestamp is `24 * day + hour` of the local date. */
module Schedule {
  import opened Wrappers
  import opened Text

  /** The clock reading `datetime.now()` supplies; `day` numbers the local date. */
  datatype Clock = Clock(day: int, hour: int, minute: int, second: int, microsecond: int)

  /** Why `gen_times_to_run` gives no schedule. The first three are the `raise Exception`
      branches; `NeverEnds` is the "0 hours" step with a positive day count, for which
      the generator never reaches its end. */
  datatype ScheduleError = UnsupportedStart | NoDayCount | NoHourStep | NeverEnds

  /** The three daytime bands `[low, high]`; a run starts at the low end of its band. */
  const HourIntervals: seq<(int, int)> := [(1, 6), (7, 12), (13, 18)]

  /** The start hour outside every band. */
  const LateStart: int := 19

  /** The start hour as the bands define it. */
  function StartHourOf(curHour: int): int {
    if 1 <= curHour <= 6 then 1
    else if 7 <= curHour <= 12 then 7
    else if 13 <= curHour <= 18 then 13
    else LateStart
  }

  predicate InBand(curHour: int, k: nat)
    requires k < |HourIntervals|
  {
    HourIntervals[k].0 <= curHour <= HourIntervals[k].1
  }

  /** The loop over `hour_intervals` that picks `time_to_start`. */
  method TimeToStart(curHour: int) returns (h: int)
    ensures 1 <= curHour <= 6 ==> h == 1
    ensures 7 <= curHour <= 12 ==> h == 7
    ensures 13 <= curHour <= 18 ==> h == 13
    ensures (curHour < 1 || 18 < curHour) ==> h == LateStart
    ensures h == StartHourOf(curHour)
  {
    h := LateStart;
    for i := 0 to |HourIntervals|
      invariant forall k :: 0 <= k < i && InBand(curHour, k) ==> h == HourIntervals[k].0
      invariant (forall k :: 0 <= k < i ==> !InBand(curHour, k)) ==> h == LateStart
    {
      if InBand(curHour, i) {
        h := HourIntervals[i].0;
      }
    }
    assert !InBand(curHour, 0) && !InBand(curHour, 1) && !InBand(curHour, 2) ==> h == LateStart;
  }

  /** `\s([0-9]+)\s` matches at i with its group `s[i+1..j]`. */
  predicate SpacedNumberAt(s: string, i: nat, j: nat) {
    i + 1 < j < |s| && IsSpace(s[i]) && AllDigits(s, i + 1, j) && IsSpace(s[j])
  }

  /** `([0-9]+)\s` matches at i with its group `s[i..j]`. */
  predicate NumberSpaceAt(s: string, i: nat, j: nat) {
    i < j < |s| && AllDigits(s, i, j) && IsSpace(s[j])
  }

  /** The end of the greedy digit run `[0-9]+` starting at i. */
  function DigitRunEnd(s: string, i: nat): (j: nat)
    requires i <= |s|
    decreases |s| - i
    ensures i <= j <= |s| && AllDigits(s, i, j)
    ensures j < |s| ==> !IsDigit(s[j])
  {
    if i < |s| && IsDigit(s[i]) then DigitRunEnd(s, i + 1) else i
  }

  /** No whitespace is a digit, so a digit run ending in whitespace ends where the
      greedy run ends. */
  lemma RunEndsAtSpace(s: string, i: nat, j: nat)
    requires i <= j < |s| && AllDigits(s, i, j) && IsSpace(s[j])
    ensures DigitRunEnd(s, i) == j
  {
  }

  /** What `re.search(r"\s([0-9]+)\s", ...)` does from position `from`: the leftmost
      start whose greedy digit run is closed by whitespace. */
  function SearchSpacedNumber(s: string, from: nat): (r: Option<(nat, nat)>)
    requires from <= |s|
    decreases |s| - from
    ensures r.Some? ==> from <= r.value.0 && SpacedNumberAt(s, r.value.0, r.value.1)
    ensures r.Some? ==> forall i, j :: from <= i < r.value.0 ==> !SpacedNumberAt(s, i, j)
    ensures r.None? ==> forall i, j :: from <= i ==> !SpacedNumberAt(s, i, j)
  {
    if from == |s| then None
    else if from + 1 < |s| && IsSpace(s[from]) && IsDigit(s[from + 1])
         && DigitRunEnd(s, from + 1) < |s| && IsSpace(s[DigitRunEnd(s, from + 1)])
    then Some((from, DigitRunEnd(s, from + 1)))
    else
      NoSpacedNumberAt(s, from);
      SearchSpacedNumber(s, from + 1)
  }

  lemma NoSpacedNumberAt(s: string, from: nat)
    requires from < |s|
    requires !(from + 1 < |s| && IsSpace(s[from]) && IsDigit(s[from + 1])
               && DigitRunEnd(s, from + 1) < |s| && IsSpace(s[DigitRunEnd(s, from + 1)]))
    ensures forall j :: !SpacedNumberAt(s, from, j)
  {
    forall j | SpacedNumberAt(s, from, j) ensures false {
      RunEndsAtSpace(s, from + 1, j);
    }
  }

  /** What `re.search(r"([0-9]+)\s", ...)` does from position `from`. */
  function SearchNumberSpace(s: string, from: nat): (r: Option<(nat, nat)>)
    requires from <= |s|
    decreases |s| - from
    ensures r.Some? ==> from <= r.value.0 && NumberSpaceAt(s, r.value.0, r.value.1)
    ensures r.Some? ==> forall i, j :: from <= i < r.value.0 ==> !NumberSpaceAt(s, i, j)
    ensures r.None? ==> forall i, j :: from <= i ==> !NumberSpaceAt(s, i, j)
  {
    if from == |s| then None
    else if IsDigit(s[from]) && DigitRunEnd(s, from) < |s| && IsSpace(s[DigitRunEnd(s, from)])
    then Some((from, DigitRunEnd(s, from)))
    else
      NoNumberSpaceAt(s, from);
      SearchNumberSpace(s, from + 1)
  }

  lemma NoNumberSpaceAt(s: string, from: nat)
    requires from < |s|
    requires !(IsDigit(s[from]) && DigitRunEnd(s, from) < |s| && IsSpace(s[DigitRunEnd(s, from)]))
    ensures forall j :: !NumberSpaceAt(s, from, j)
  {
    forall j | NumberSpaceAt(s, from, j) ensures false {
      RunEndsAtSpace(s, from, j);
    }
  }

  /** The day count parsed from `stop`: the digits of the leftmost match, or `None`
      when the search finds nothing. */
  function DayCount(stop: string): (r: Option<nat>)
    ensures r.None? <==> forall i, j :: !SpacedNumberAt(stop, i, j)
    ensures r.Some? ==> exists i: nat, j: nat ::
      && SpacedNumberAt(stop, i, j) && r.value == DecimalValue(stop[i + 1..j])
      && forall i': nat, j': nat :: i' < i ==> !SpacedNumberAt(stop, i', j')
  {
    match SearchSpacedNumber(stop, 0)
    case None => None
    case Some((i, j)) => Some(DecimalValue(stop[i + 1..j]))
  }

  /** The hour step parsed from `delta`: the digits of the leftmost match, or `None`
      when the search finds nothing. */
  function HourStep(delta: string): (r: Option<nat>)
    ensures r.None? <==> forall i, j :: !NumberSpaceAt(delta, i, j)
    ensures r.Some? ==> exists i: nat, j: nat ::
      && NumberSpaceAt(delta, i, j) && r.value == DecimalValue(delta[i..j])
      && forall i': nat, j': nat :: i' < i ==> !NumberSpaceAt(delta, i', j')
  {
    match SearchNumberSpace(delta, 0)
    case None => None
    case Some((i, j)) => Some(DecimalValue(delta[i..j]))
  }

  /** The generator `perdelta` materialised: `start`, then steps of `delta`, while below `end`. */
  method PerDelta(start: int, end: int, delta: int) returns (xs: seq<int>)
    requires start < end ==> delta > 0
    ensures forall k :: 0 <= k < |xs| ==> xs[k] == start + k * delta && xs[k] < end
    ensures start + |xs| * delta >= end
    ensures start >= end ==> xs == []
  {
    xs := [];
    var curr := start;
    while curr < end
      invariant curr == start + |xs| * delta
      invariant curr < end ==> delta > 0
      invariant start >= end ==> xs == []
      invariant forall k :: 0 <= k < |xs| ==> xs[k] == start + k * delta && xs[k] < end
      decreases end - curr
    {
      xs := xs + [curr];
      curr := curr + delta;
    }
  }

  /** `ceil(x / h)` for h > 0. */
  function CeilDiv(x: nat, h: nat): nat
    requires h > 0
  {
    (x + h - 1) / h
  }

  /** The runs `gen_times_to_run` promises: `first` and every step of `hours` after it,
      `ceil(24 days / hours) + 1` of them (none when both counts are 0). */
  ghost predicate IsRunSchedule(xs: seq<int>, first: int, days: nat, hours: nat) {
    && |xs| == (if hours == 0 then 0 else CeilDiv(24 * days, hours) + 1)
    && forall k :: 0 <= k < |xs| ==> xs[k] == first + k * hours
  }

  lemma MulMonotone(a: int, b: int, h: nat)
    requires a <= b
    ensures a * h <= b * h
  {
  }

  /** The one n with `(n - 1) * h < x + h <= n * h` is `ceil(x / h) + 1`. */
  lemma StepCount(x: nat, h: nat, n: nat)
    requires h > 0
    requires (n - 1) * h < x + h <= n * h
    ensures n == CeilDiv(x, h) + 1
  {
    var c := CeilDiv(x, h);
    assert c * h <= x + h - 1 < (c + 1) * h;
    if n - 1 < c {
      MulMonotone(n, c, h);
      assert false;
    } else if n - 1 > c {
      MulMonotone(c + 1, n - 1, h);
      assert false;
    }
  }

  /** `gen_times_to_run(start, stop, delta)` with the clock passed in. */
  method GenTimesToRun(start: string, stop: string, delta: string, now: Clock)
    returns (r: Result<seq<int>, ScheduleError>)
    ensures start != "today" ==> r == Failure(UnsupportedStart)
    ensures start == "today" && DayCount(stop).None? ==> r == Failure(NoDayCount)
    ensures start == "today" && DayCount(stop).Some? && HourStep(delta).None? ==> r == Failure(NoHourStep)
    ensures start == "today" && DayCount(stop).Some? && HourStep(delta).Some? ==>
      if HourStep(delta).value == 0 && DayCount(stop).value > 0 then r == Failure(NeverEnds)
      else (r.Success? &&
            IsRunSchedule(r.value, 24 * now.day + StartHourOf(now.hour), DayCount(stop).value, HourStep(delta).value))
  {
    if start != "today" {
      return Failure(UnsupportedStart);
    }
    var timeToStart := TimeToStart(now.hour);
    var curStart := 24 * now.day + timeToStart;
    var days := DayCount(stop);
    if days.None? {
      return Failure(NoDayCount);
    }
    var hours := HourStep(delta);
    if hours.None? {
      return Failure(NoHourStep);
    }
    var d, h := days.value, hours.value;
    if h == 0 && d > 0 {
      return Failure(NeverEnds);
    }
    var curEnd := curStart + 24 * d + h;
    var times := PerDelta(curStart, curEnd, h);
    if h > 0 {
      assert |times| > 0;
      assert times[|times| - 1] < curEnd;
      StepCount(24 * d, h, |times|);
    }
    return Success(times);
  }

  /** A schedule with a positive step is never empty, starts at `first`, and is strictly
      increasing with each run exactly `hours` after the previous one. */
  lemma ScheduleSteps(xs: seq<int>, first: int, days: nat, hours: nat)
    requires hours > 0 && IsRunSchedule(xs, first, days, hours)
    ensures |xs| > 0 && xs[0] == first
    ensures forall k :: 0 < k < |xs| ==> xs[k] == xs[k - 1] + hours
    ensures forall a, b :: 0 <= a < b < |xs| ==> xs[a] < xs[b]
  {
    forall a, b | 0 <= a < b < |xs| ensures xs[a] < xs[b] {
      MulMonotone(a + 1, b, hours);
    }
  }

  /** Every run stays below the end `first + 24 days + hours`, and the last one lies in
      `[first + 24 days, end)`: the schedule covers the whole period and no more. */
  lemma ScheduleEnds(xs: seq<int>, first: int, days: nat, hours: nat)
    requires hours > 0 && IsRunSchedule(xs, first, days, hours)
    ensures forall k :: 0 <= k < |xs| ==> xs[k] < first + 24 * days + hours
    ensures |xs| > 0 && first + 24 * days <= xs[|xs| - 1] < first + 24 * days + hours
  {
    var c := CeilDiv(24 * days, hours);
    assert c * hours <= 24 * days + hours - 1 < (c + 1) * hours;
    assert xs[|xs| - 1] == first + c * hours;
    forall k | 0 <= k < |xs| ensures xs[k] < first + 24 * days + hours {
      MulMonotone(k, c, hours);
    }
  }

  /** The stop argument `main` passes, 'in 21 days', reads as 21 days. */
  lemma DefaultDayCount()
    ensures DayCount("in 21 days") == Some(21)
  {
    var stop := "in 21 days";
    assert DigitRunEnd(stop, 3) == 5 by {
      assert DigitRunEnd(stop, 5) == 5;
    }
    assert SearchSpacedNumber(stop, 2) == Some((2, 5));
    assert SearchSpacedNumber(stop, 1) == Some((2, 5)) by {
      assert !IsSpace(stop[1]);
    }
    assert SearchSpacedNumber(stop, 0) == Some((2, 5)) by {
      assert !IsSpace(stop[0]);
    }
    assert stop[3..5] == "21";
    assert DecimalValue("2") == 2;
  }

  /** The step argument `main` passes, '6 hours', reads as a 6-hour step. */
  lemma DefaultHourStep()
    ensures HourStep("6 hours") == Some(6)
  {
    var delta := "6 hours";
    assert DigitRunEnd(delta, 0) == 1 by {
      assert DigitRunEnd(delta, 1) == 1;
    }
    assert SearchNumberSpace(delta, 0) == Some((0, 1));
    assert delta[0..1] == "6";
  }

  /** With those arguments the schedule has 85 runs, the last one exactly 21 days after
      the first. */
  lemma DefaultSchedule(xs: seq<int>, first: int)
    requires IsRunSchedule(xs, first, 21, 6)
    ensures |xs| == 85
    ensures xs[84] == first + 21 * 24
  {
    assert CeilDiv(24 * 21, 6) == 84;
  }
}
