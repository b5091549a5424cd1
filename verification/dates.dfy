/**
 * The date sequencer of the batch driver: splitting a "start_end" range descriptor,
 * expanding a range into its dates by a fixed step (inclusive of the end), and the
 * overall order in which dates are run (explicit dates first, then every range).
 *
 * Calendar dates are abstracted to day ordinals; parsing and formatting with the
 * configured date format are the `parse` and `format` functions of a `Calendar`.
 */
module DateSequencer {
  import opened Wrappers

  /** A calendar date, as its day ordinal: only the order of dates matters here. */
  type Date = int

  /** The increment between two consecutive dates of a range (`delta`); always positive. */
  type Step = k: int | 0 < k witness 1

  /** The character that separates the two dates of a range descriptor. */
  const RANGE_SEPARATOR: char := '_'

  /** The step used when the configuration has no `delta`: one day. */
  const DEFAULT_STEP: Step := 1

  /** The date format used when the configuration has no `date_format`. */
  const DEFAULT_DATE_FORMAT: string := "%Y-%m-%d"

  /**
   * Why the date specification could not be expanded. Carrying the offending string is a
   * choice of this model: the `ValueError` of a failed tuple unpack names only the piece
   * counts, not the descriptor.
   */
  datatype DateError =
    | MalformedRange(range: string)   // the descriptor does not split into exactly two dates
    | InvalidDateFormat(date: string) // a range bound does not parse with the date format

  /**
   * The shared date settings of a batch: the step, and parsing and formatting with
   * the configured date format (`strptime` and `strftime`).
   */
  datatype Calendar = Calendar(step: Step, parse: string -> Option<Date>, format: Date -> string)

  /** `format` never maps two different dates to the same text. */
  ghost predicate Injective(format: Date -> string) {
    forall d1, d2 :: format(d1) == format(d2) ==> d1 == d2
  }

  /** The pieces glued back together with `sep` between them. */
  function Join(pieces: seq<string>, sep: char): string {
    if |pieces| == 0 then []
    else if |pieces| == 1 then pieces[0]
    else pieces[0] + [sep] + Join(pieces[1..], sep)
  }

  /**
   * Splitting at every occurrence of `sep`, as Python's `str.split(sep)` does: one more
   * piece than there are separators, no piece holds a separator, and joining the pieces
   * gives back the input.
   */
  function Split(s: string, sep: char): (pieces: seq<string>)
    ensures |pieces| >= 1
    ensures forall i :: 0 <= i < |pieces| ==> sep !in pieces[i]
  {
    if s == [] then [""]
    else
      var rest := Split(s[1..], sep);
      if s[0] == sep then [""] + rest
      else [[s[0]] + rest[0]] + rest[1..]
  }

  /** A split gives one more piece than the input holds separators. */
  lemma {:induction false} SplitCount(s: string, sep: char)
    ensures |Split(s, sep)| == multiset(s)[sep] + 1
  {
    if s != [] {
      SplitCount(s[1..], sep);
      assert s == [s[0]] + s[1..];
      assert multiset(s) == multiset{s[0]} + multiset(s[1..]);
    }
  }

  /** Joining the pieces of a split with the separator gives back the input. */
  lemma {:induction false} SplitJoin(s: string, sep: char)
    ensures Join(Split(s, sep), sep) == s
  {
    if s != [] {
      var rest := Split(s[1..], sep);
      SplitJoin(s[1..], sep);
      assert Join(rest, sep) == s[1..];
      var pieces := Split(s, sep);
      if s[0] == sep {
        assert pieces == [""] + rest;
        assert pieces[1..] == rest;
        assert Join(pieces, sep) == [sep] + s[1..];
      } else {
        assert pieces == [[s[0]] + rest[0]] + rest[1..];
        assert pieces[1..] == rest[1..];
        if |rest| > 1 {
          assert Join(rest, sep) == rest[0] + [sep] + Join(rest[1..], sep);
          assert Join(pieces, sep) == [s[0]] + rest[0] + [sep] + Join(rest[1..], sep);
        } else {
          assert Join(pieces, sep) == [s[0]] + rest[0];
        }
      }
      assert s == [s[0]] + s[1..];
    }
  }

  /** `parse_date_range`: the two pieces of the descriptor split at `_`, when there are exactly two. */
  function ParseDateRange(range: string): Result<(string, string), DateError> {
    var pieces := Split(range, RANGE_SEPARATOR);
    if |pieces| == 2 then Success((pieces[0], pieces[1])) else Failure(MalformedRange(range))
  }

  /**
   * Unpacking the pieces of the split into two names fails unless there are exactly two,
   * that is unless the descriptor holds exactly one `_`; the two dates are then the text
   * before and the text after it.
   */
  lemma ParseDateRangeSpec(range: string)
    ensures var r := ParseDateRange(range);
      && (r.Success? <==> multiset(range)[RANGE_SEPARATOR] == 1)
      && (r.Success? ==> range == r.value.0 + [RANGE_SEPARATOR] + r.value.1)
      && (r.Success? ==> RANGE_SEPARATOR !in r.value.0 && RANGE_SEPARATOR !in r.value.1)
      && (r.Failure? ==> r.error == MalformedRange(range))
  {
    var pieces := Split(range, RANGE_SEPARATOR);
    SplitCount(range, RANGE_SEPARATOR);
    if |pieces| == 2 {
      SplitJoin(range, RANGE_SEPARATOR);
      assert pieces[1..] == [pieces[1]];
      assert Join(pieces, RANGE_SEPARATOR) == pieces[0] + [RANGE_SEPARATOR] + Join(pieces[1..], RANGE_SEPARATOR);
    }
  }

  /** A text holds the separator at most at one place. */
  lemma SeparatorUnique(a: string, b: string, c: string, d: string)
    requires RANGE_SEPARATOR !in a && RANGE_SEPARATOR !in b
    requires RANGE_SEPARATOR !in c && RANGE_SEPARATOR !in d
    requires a + [RANGE_SEPARATOR] + b == c + [RANGE_SEPARATOR] + d
    ensures a == c && b == d
  {
    var s := a + [RANGE_SEPARATOR] + b;
    assert s[|a|] == RANGE_SEPARATOR && s[|c|] == RANGE_SEPARATOR;
    assert forall i :: 0 <= i < |a| ==> s[i] == a[i];
    assert forall i :: 0 <= i < |c| ==> s[i] == c[i];
    assert |a| == |c|;
    assert a == s[..|a|] && c == s[..|c|];
    assert b == s[|a| + 1..] && d == s[|c| + 1..];
  }

  /** Parsing a descriptor built from two separator-free dates gives them back. */
  lemma ParseDateRangeRoundTrip(start: string, end: string)
    requires RANGE_SEPARATOR !in start && RANGE_SEPARATOR !in end
    ensures ParseDateRange(start + [RANGE_SEPARATOR] + end) == Success((start, end))
  {
    var range := start + [RANGE_SEPARATOR] + end;
    assert multiset(start)[RANGE_SEPARATOR] == 0 && multiset(end)[RANGE_SEPARATOR] == 0;
    assert multiset(range) == multiset(start) + multiset{RANGE_SEPARATOR} + multiset(end);
    ParseDateRangeSpec(range);
    var r := ParseDateRange(range);
    SeparatorUnique(r.value.0, r.value.1, start, end);
  }

  /** The `n`-th date of a range that starts at `start`. */
  function StepFrom(start: Date, step: Step, n: nat): Date {
    start + n * step
  }

  /** The dates `generate_dates` visits: from `current`, one step at a time, while not past `end`. */
  function DateOrdinals(current: Date, end: Date, step: Step): seq<Date>
    decreases end - current
  {
    if current > end then [] else [current] + DateOrdinals(current + step, end, step)
  }

  /**
   * A range is empty exactly when it starts after its end; otherwise it starts with its
   * start; every date lies between start and end, and the dates strictly increase.
   */
  lemma {:induction false} DateOrdinalsShape(current: Date, end: Date, step: Step)
    ensures var ds := DateOrdinals(current, end, step);
      && (ds == [] <==> current > end)
      && (current <= end ==> ds[0] == current)
      && (forall i :: 0 <= i < |ds| ==> current <= ds[i] <= end)
      && (forall i, j :: 0 <= i < j < |ds| ==> ds[i] < ds[j])
    decreases end - current
  {
    if current <= end {
      var rest := DateOrdinals(current + step, end, step);
      DateOrdinalsShape(current + step, end, step);
      var ds := [current] + rest;
      assert forall i :: 1 <= i < |ds| ==> ds[i] == rest[i - 1];
    }
  }

  /** Every date of a range is the start advanced by its index many steps. */
  lemma {:induction false} DateOrdinalsAt(current: Date, end: Date, step: Step, i: nat)
    requires i < |DateOrdinals(current, end, step)|
    ensures DateOrdinals(current, end, step)[i] == StepFrom(current, step, i)
    decreases i
  {
    if i > 0 {
      DateOrdinalsAt(current + step, end, step, i - 1);
      assert (i - 1) * step + step == i * step;
    }
  }

  /** Every multiple of the step that does not pass the end is visited. */
  lemma {:induction false} DateOrdinalsReach(current: Date, end: Date, step: Step, n: nat)
    requires StepFrom(current, step, n) <= end
    ensures n < |DateOrdinals(current, end, step)|
    decreases n
  {
    assert n * step >= 0;
    if n > 0 {
      assert StepFrom(current + step, step, n - 1) == StepFrom(current, step, n);
      DateOrdinalsReach(current + step, end, step, n - 1);
    }
  }

  /** The end is inclusive: when the end is reachable by the step, it is the last date visited. */
  lemma {:induction false} DateOrdinalsEndInclusive(current: Date, end: Date, step: Step, n: nat)
    requires StepFrom(current, step, n) == end
    ensures |DateOrdinals(current, end, step)| == n + 1
    ensures DateOrdinals(current, end, step)[n] == end
    decreases n
  {
    assert n * step >= 0;
    if n > 0 {
      assert StepFrom(current + step, step, n - 1) == StepFrom(current, step, n);
      DateOrdinalsEndInclusive(current + step, end, step, n - 1);
    } else {
      assert DateOrdinals(current + step, end, step) == [];
    }
  }

  /** The dates, each rendered with `format`. */
  function FormatAll(format: Date -> string, ds: seq<Date>): (xs: seq<string>)
    ensures |xs| == |ds|
    ensures forall i :: 0 <= i < |ds| ==> xs[i] == format(ds[i])
  {
    if ds == [] then [] else FormatAll(format, ds[..|ds| - 1]) + [format(ds[|ds| - 1])]
  }

  /**
   * The dates `generate_dates` yields for one range: both bounds are parsed before the
   * first date is yielded, the start first, and each failure is an invalid date format.
   */
  function ExpandDates(startDate: string, endDate: string, cal: Calendar): Result<seq<string>, DateError> {
    match cal.parse(startDate)
    case None => Failure(InvalidDateFormat(startDate))
    case Some(first) =>
      match cal.parse(endDate)
      case None => Failure(InvalidDateFormat(endDate))
      case Some(last) => Success(FormatAll(cal.format, DateOrdinals(first, last, cal.step)))
  }

  /**
   * `generate_dates` as its loop: parse both bounds, then yield the current date and
   * advance it by the step while it is not past the end.
   */
  method GenerateDates(startDate: string, endDate: string, cal: Calendar)
    returns (r: Result<seq<string>, DateError>)
    ensures r == ExpandDates(startDate, endDate, cal)
  {
    var first := cal.parse(startDate);
    if first.None? {
      return Failure(InvalidDateFormat(startDate));
    }
    var last := cal.parse(endDate);
    if last.None? {
      return Failure(InvalidDateFormat(endDate));
    }
    var current := first.value;
    var dates: seq<string> := [];
    ghost var visited: seq<Date> := [];
    while current <= last.value
      invariant DateOrdinals(first.value, last.value, cal.step)
             == visited + DateOrdinals(current, last.value, cal.step)
      invariant dates == FormatAll(cal.format, visited)
      decreases last.value - current
    {
      dates := dates + [cal.format(current)];
      ghost var before := visited;
      visited := visited + [current];
      assert visited[..|visited| - 1] == before;
      current := current + cal.step;
    }
    assert DateOrdinals(current, last.value, cal.step) == [];
    assert visited == DateOrdinals(first.value, last.value, cal.step);
    return Success(dates);
  }

  /**
   * What the expansion of one range promises when both bounds parse: nothing when the
   * start is after the end; otherwise the start comes first, the end comes last when the
   * step reaches it, a single-day range gives that day alone, and with an injective
   * format every date appears once and lies between the bounds.
   */
  lemma ExpandDatesInclusive(startDate: string, endDate: string, cal: Calendar)
    requires cal.parse(startDate).Some? && cal.parse(endDate).Some?
    ensures var first, last := cal.parse(startDate).value, cal.parse(endDate).value;
      var r := ExpandDates(startDate, endDate, cal);
      && r.Success?
      && (r.value == [] <==> first > last)
      && (first <= last ==> r.value[0] == cal.format(first))
      && (first == last ==> r.value == [cal.format(first)])
      && (forall n: nat :: StepFrom(first, cal.step, n) == last ==> r.value[|r.value| - 1] == cal.format(last))
      && (forall i :: 0 <= i < |r.value| ==>
            exists d :: first <= d <= last && r.value[i] == cal.format(d))
      && (Injective(cal.format) ==>
            forall i, j :: 0 <= i < j < |r.value| ==> r.value[i] != r.value[j])
  {
    var first, last := cal.parse(startDate).value, cal.parse(endDate).value;
    var ds := DateOrdinals(first, last, cal.step);
    DateOrdinalsShape(first, last, cal.step);
    forall n: nat | StepFrom(first, cal.step, n) == last
      ensures FormatAll(cal.format, ds)[|ds| - 1] == cal.format(last)
    {
      DateOrdinalsEndInclusive(first, last, cal.step, n);
    }
    if first == last {
      assert ds == [first] + DateOrdinals(first + cal.step, last, cal.step);
    }
  }

  /** `parse_date_range` followed by `generate_dates`: the dates of one range descriptor. */
  function ExpandRange(range: string, cal: Calendar): Result<seq<string>, DateError> {
    match ParseDateRange(range)
    case Failure(e) => Failure(e)
    case Success((startDate, endDate)) => ExpandDates(startDate, endDate, cal)
  }

  /** Both expansions one after the other, or the error of the first one that failed. */
  function Then(first: Result<seq<string>, DateError>, second: Result<seq<string>, DateError>): Result<seq<string>, DateError> {
    if first.Failure? then first
    else if second.Failure? then second
    else Success(first.value + second.value)
  }

  /** The dates of every range, range after range in listed order; the first bad range is the error. */
  function RangePlan(ranges: seq<string>, cal: Calendar): Result<seq<string>, DateError> {
    if ranges == [] then Success([])
    else Then(ExpandRange(ranges[0], cal), RangePlan(ranges[1..], cal))
  }

  /** The order in which `main` runs dates: the explicit dates verbatim, then every range. */
  function DatePlan(dates: seq<string>, ranges: seq<string>, cal: Calendar): Result<seq<string>, DateError> {
    Then(Success(dates), RangePlan(ranges, cal))
  }

  /** Ranges listed one after the other expand one after the other. */
  lemma {:induction false} RangePlanAppend(first: seq<string>, second: seq<string>, cal: Calendar)
    ensures RangePlan(first + second, cal) == Then(RangePlan(first, cal), RangePlan(second, cal))
  {
    if first == [] {
      assert first + second == second;
      var rest := RangePlan(second, cal);
      assert rest.Success? ==> [] + rest.value == rest.value;
    } else {
      var both := first + second;
      assert both[0] == first[0];
      assert both[1..] == first[1..] + second;
      RangePlanAppend(first[1..], second, cal);
      var head := ExpandRange(first[0], cal);
      var tail, rest := RangePlan(first[1..], cal), RangePlan(second, cal);
      assert RangePlan(both, cal) == Then(head, Then(tail, rest));
      assert RangePlan(first, cal) == Then(head, tail);
      if head.Success? && tail.Success? && rest.Success? {
        assert head.value + (tail.value + rest.value) == head.value + tail.value + rest.value;
      }
    }
  }

  /**
   * The plan exists exactly when every range expands; it then starts with the explicit
   * dates as given, and keeps every date of every range (no deduplication): its length is
   * the number of explicit dates plus the lengths of all expansions.
   */
  lemma {:induction false} DatePlanOrder(dates: seq<string>, ranges: seq<string>, cal: Calendar)
    ensures DatePlan(dates, ranges, cal).Success? <==>
      forall i :: 0 <= i < |ranges| ==> ExpandRange(ranges[i], cal).Success?
    ensures DatePlan(dates, ranges, cal).Success? ==>
      var plan := DatePlan(dates, ranges, cal).value;
      && plan[..|dates|] == dates
      && (ranges != [] ==> plan[|dates|..|dates| + |ExpandRange(ranges[0], cal).value|]
                           == ExpandRange(ranges[0], cal).value)
      && |plan| == |dates| + ExpandedCount(ranges, cal)
  {
    if ranges != [] {
      DatePlanOrder(dates, ranges[1..], cal);
      assert forall i :: 1 <= i < |ranges| ==> ranges[i] == ranges[1..][i - 1];
      if DatePlan(dates, ranges, cal).Success? {
        var plan := DatePlan(dates, ranges, cal).value;
        var head := ExpandRange(ranges[0], cal).value;
        assert plan == dates + head + RangePlan(ranges[1..], cal).value;
      }
    }
  }

  /** How many dates the ranges expand to, counting a bad range as none. */
  function ExpandedCount(ranges: seq<string>, cal: Calendar): nat {
    if ranges == [] then 0
    else
      (match ExpandRange(ranges[0], cal) case Failure(_) => 0 case Success(ds) => |ds|)
      + ExpandedCount(ranges[1..], cal)
  }

  /** The plan fails with the error of the first range that does not expand. */
  lemma {:induction false} DatePlanFirstError(dates: seq<string>, ranges: seq<string>, cal: Calendar, k: nat)
    requires k < |ranges| && ExpandRange(ranges[k], cal).Failure?
    requires forall i :: 0 <= i < k ==> ExpandRange(ranges[i], cal).Success?
    ensures DatePlan(dates, ranges, cal) == Failure(ExpandRange(ranges[k], cal).error)
    decreases k
  {
    if k > 0 {
      assert forall i :: 0 <= i < k - 1 ==> ranges[1..][i] == ranges[i + 1];
      DatePlanFirstError(dates, ranges[1..], cal, k - 1);
    }
  }
}
