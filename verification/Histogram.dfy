/** The request-duration histogram: counters bumped by any number of threads while
    a scrape reads them one after another.  Counters are 64 bits wide and wrap. */
module Histogram {
  import opened Words

  const BUCKETS: nat := 10

  /** Upper bounds in nanoseconds; the eleventh bucket has none. */
  const BOUNDS: seq<nat> := [20000, 50000, 100000, 250000, 500000, 1000000, 2500000, 5000000, 10000000, 50000000]

  /** The duration counts towards line `i`: bounds are inclusive. */
  ghost predicate Within(d: nat, i: nat) {
    i >= BUCKETS || d <= BOUNDS[i]
  }

  /** Bounds increase, so a duration counts towards every line from its first one on. */
  lemma WithinGrows(d: nat, i: nat, j: nat)
    requires i <= j && Within(d, i)
    ensures Within(d, j)
  {
  }

  lemma {:induction false} SomeBucket(d: nat, from: nat) returns (i: nat)
    requires from <= BUCKETS && (from == 0 || !Within(d, from - 1))
    ensures i <= BUCKETS && Within(d, i) && (i == 0 || !Within(d, i - 1))
    decreases BUCKETS - from
  {
    if Within(d, from) {
      i := from;
    } else {
      i := SomeBucket(d, from + 1);
    }
  }

  ghost predicate IsBucket(d: nat, i: nat) {
    i <= BUCKETS && Within(d, i) && (i == 0 || !Within(d, i - 1))
  }

  /** The first bucket whose bound the duration does not exceed. */
  ghost function Bucket(d: nat): (i: nat)
    ensures IsBucket(d, i)
  {
    assert exists i: nat :: IsBucket(d, i) by {
      var i := SomeBucket(d, 0);
      assert IsBucket(d, i);
    }
    var i: nat :| IsBucket(d, i);
    i
  }

  lemma BucketMeaning(d: nat, i: nat)
    ensures Bucket(d) <= i <==> Within(d, i)
  {
    var k := Bucket(d);
    if k <= i {
      WithinGrows(d, k, i);
    } else if Within(d, i) {
      WithinGrows(d, i, k - 1);
    }
  }

  lemma BucketIsUnique(d: nat, i: nat)
    requires IsBucket(d, i)
    ensures i == Bucket(d)
  {
    BucketMeaning(d, i);
    if i > 0 {
      BucketMeaning(d, i - 1);
    }
  }

  method BucketIndex(d: nat) returns (i: nat)
    ensures i == Bucket(d)
  {
    i := 0;
    while i < BUCKETS
      invariant i <= BUCKETS && (i == 0 || !Within(d, i - 1))
    {
      if d <= BOUNDS[i] {
        BucketIsUnique(d, i);
        return;
      }
      i := i + 1;
    }
    BucketIsUnique(d, i);
  }

  // ------------------------------------------------------- what a scrape should say

  /** Observations in bucket `i`. */
  ghost function InBucket(log: seq<nat>, i: nat): nat {
    if log == [] then 0 else InBucket(log[..|log| - 1], i) + if Bucket(log[|log| - 1]) == i then 1 else 0
  }

  /** Observations at or below bound `i`. */
  ghost function AtMost(log: seq<nat>, i: nat): nat {
    if log == [] then 0 else AtMost(log[..|log| - 1], i) + if Within(log[|log| - 1], i) then 1 else 0
  }

  ghost function Total(log: seq<nat>): nat {
    if log == [] then 0 else Total(log[..|log| - 1]) + log[|log| - 1]
  }

  lemma {:induction false} AtMostSplits(log: seq<nat>, i: nat)
    requires i <= BUCKETS
    ensures AtMost(log, i) == (if i == 0 then 0 else AtMost(log, i - 1)) + InBucket(log, i)
    ensures AtMost(log, i) <= |log|
  {
    if log != [] {
      var front, d := log[..|log| - 1], log[|log| - 1];
      AtMostSplits(front, i);
      BucketMeaning(d, i);
      if i > 0 {
        BucketMeaning(d, i - 1);
      }
    }
  }

  /** Later logs count at least as much. */
  lemma {:induction false} LogGrows(a: seq<nat>, b: seq<nat>, i: nat)
    requires a <= b
    ensures InBucket(a, i) <= InBucket(b, i) && AtMost(a, i) <= AtMost(b, i) && Total(a) <= Total(b)
    decreases |b|
  {
    if |a| < |b| {
      LogGrows(a, b[..|b| - 1], i);
    } else {
      assert a == b;
    }
  }

  /** All eleven lines of a scrape that reads everything at once. */
  ghost function Truth(log: seq<nat>): (t: seq<nat>)
    ensures |t| == BUCKETS + 1 && forall i :: 0 <= i <= BUCKETS ==> t[i] == AtMost(log, i)
  {
    seq(BUCKETS + 1, i requires 0 <= i <= BUCKETS => AtMost(log, i))
  }

  /** Lines that lie between two truths. */
  ghost predicate Between(lines: seq<nat>, low: seq<nat>, high: seq<nat>) {
    |lines| <= |low| == |high| && forall i :: 0 <= i < |lines| ==> low[i] <= lines[i] <= high[i]
  }

  ghost predicate Ordered(lines: seq<nat>) {
    forall i, j :: 0 <= i <= j < |lines| ==> lines[i] <= lines[j]
  }

  lemma BetweenAppend(lines: seq<nat>, line: nat, low: seq<nat>, high: seq<nat>)
    requires Between(lines, low, high) && |lines| < |low| && low[|lines|] <= line <= high[|lines|]
    ensures Between(lines + [line], low, high)
  {
  }

  lemma OrderedAppend(lines: seq<nat>, line: nat)
    requires Ordered(lines) && (lines == [] || lines[|lines| - 1] <= line)
    ensures Ordered(lines + [line])
  {
  }

  lemma BetweenLater(lines: seq<nat>, low: seq<nat>, high: seq<nat>, last: seq<nat>)
    requires Between(lines, low, high) && |last| == |high| && forall i :: 0 <= i < |high| ==> high[i] <= last[i]
    ensures Between(lines, low, last)
  {
  }

  lemma TruthLater(log: seq<nat>, later: seq<nat>)
    requires log <= later
    ensures forall i :: 0 <= i <= BUCKETS ==> Truth(log)[i] <= Truth(later)[i]
  {
    forall i | 0 <= i <= BUCKETS
      ensures Truth(log)[i] <= Truth(later)[i]
    {
      LogGrows(log, later, i);
    }
  }

  // -------------------------------------------------------------------- interleaving

  /** The counters, the observations already added to them, and the scrape in progress:
      the lines it has rendered, its running total, and the sum once loaded. */
  datatype State = State(
    counts: seq<nat>, sum: nat, log: seq<nat>, summed: seq<nat>,
    lines: seq<nat>, cumulative: nat, sumLine: nat, sumLoaded: bool)

  datatype Step =
    | AddToBucket(d: nat)  // first half of an observation
    | AddToSum(d: nat)     // second half, possibly much later
    | BeginScrape
    | LoadBucket           // the scrape reads the next bucket and renders its line
    | LoadSum

  /** Unsigned 64-bit arithmetic. */
  function Wrapped(x: nat): (r: nat)
    ensures x < WORD ==> r == x
  {
    x % WORD
  }

  predicate Shaped(s: State) {
    |s.counts| == BUCKETS + 1 && |s.lines| <= BUCKETS + 1
  }

  /** A load with nothing left to load does nothing. */
  ghost function Next(s: State, step: Step): (s': State)
    requires Shaped(s)
    ensures Shaped(s')
  {
    match step
    case AddToBucket(d) =>
      var i := Bucket(d);
      s.(counts := s.counts[i := Wrapped(s.counts[i] + 1)], log := s.log + [d])
    case AddToSum(d) => s.(sum := Wrapped(s.sum + d), summed := s.summed + [d])
    case BeginScrape => s.(lines := [], cumulative := 0, sumLine := 0, sumLoaded := false)
    case LoadBucket =>
      if |s.lines| > BUCKETS then s
      else
        var total := Wrapped(s.cumulative + s.counts[|s.lines|]);
        s.(lines := s.lines + [total], cumulative := total)
    case LoadSum => if |s.lines| == BUCKETS + 1 then s.(sumLine := s.sum, sumLoaded := true) else s
  }

  /** No counter has wrapped yet. */
  ghost predicate InRange(s: State) {
    |s.log| < WORD && Total(s.summed) < WORD
  }

  /** The counters are what the observations added so far make them. */
  ghost predicate Counted(s: State) {
    && Shaped(s) && s.sum == Total(s.summed)
    && forall i :: 0 <= i <= BUCKETS ==> s.counts[i] == InBucket(s.log, i)
  }

  /** Every line rendered so far lies between the truth when the scrape began (`log0`,
      `summed0`) and the truth now; lines never decrease. */
  ghost predicate Bracketed(s: State, log0: seq<nat>, summed0: seq<nat>) {
    && log0 <= s.log && summed0 <= s.summed
    && Between(s.lines, Truth(log0), Truth(s.log)) && Ordered(s.lines)
    && s.cumulative == (if s.lines == [] then 0 else s.lines[|s.lines| - 1])
    && (s.sumLoaded ==> Total(summed0) <= s.sumLine <= Total(s.summed))
  }

  lemma InBucketAppend(log: seq<nat>, d: nat, i: nat)
    ensures InBucket(log + [d], i) == InBucket(log, i) + if Bucket(d) == i then 1 else 0
    ensures AtMost(log + [d], i) == AtMost(log, i) + if Within(d, i) then 1 else 0
    ensures Total(log + [d]) == Total(log) + d
  {
    assert (log + [d])[..|log|] == log;
  }

  lemma BucketAddKeepsCount(s: State, d: nat, i: nat)
    requires Counted(s) && |s.log| + 1 < WORD && i <= BUCKETS
    ensures Next(s, AddToBucket(d)).counts[i] == InBucket(s.log + [d], i)
  {
    InBucketAppend(s.log, d, i);
    AtMostSplits(s.log, i);
    BucketMeaning(d, i);
    assert s.counts[i] + 1 < WORD;
  }

  lemma CountedByBucket(s: State, d: nat)
    requires Counted(s) && |s.log| + 1 < WORD
    ensures Counted(Next(s, AddToBucket(d)))
  {
    var s' := Next(s, AddToBucket(d));
    forall i | 0 <= i <= BUCKETS
      ensures s'.counts[i] == InBucket(s'.log, i)
    {
      BucketAddKeepsCount(s, d, i);
    }
  }

  lemma CountedBySum(s: State, d: nat)
    requires Counted(s) && Total(s.summed + [d]) < WORD
    ensures Counted(Next(s, AddToSum(d)))
  {
    InBucketAppend(s.summed, d, 0);
  }

  lemma CountedElsewhere(s: State, s': State)
    requires Counted(s) && Shaped(s')
    requires s'.counts == s.counts && s'.log == s.log && s'.sum == s.sum && s'.summed == s.summed
    ensures Counted(s')
  {
  }

  lemma CountedKept(s: State, step: Step)
    requires Counted(s) && InRange(Next(s, step))
    ensures Counted(Next(s, step))
  {
    match step {
      case AddToBucket(d) =>
        CountedByBucket(s, d);
      case AddToSum(d) =>
        CountedBySum(s, d);
      case _ =>
        CountedElsewhere(s, Next(s, step));
    }
  }

  /** The next line: what was below it, plus the bucket as it stands at the moment of the load. */
  lemma NextLine(log0: seq<nat>, log: seq<nat>, i: nat, below: nat)
    requires log0 <= log && i <= BUCKETS && |log| < WORD
    requires if i == 0 then below == 0 else AtMost(log0, i - 1) <= below <= AtMost(log, i - 1)
    ensures var line := Wrapped(below + InBucket(log, i));
            AtMost(log0, i) <= line <= AtMost(log, i) && below <= line
  {
    AtMostSplits(log, i);
    AtMostSplits(log0, i);
    LogGrows(log0, log, i);
  }

  lemma LineFollows(lines: seq<nat>, line: nat, low: seq<nat>, high: seq<nat>)
    requires Between(lines, low, high) && Ordered(lines) && |lines| < |low|
    requires low[|lines|] <= line <= high[|lines|] && (lines == [] || lines[|lines| - 1] <= line)
    ensures Between(lines + [line], low, high) && Ordered(lines + [line])
  {
    BetweenAppend(lines, line, low, high);
    OrderedAppend(lines, line);
  }

  /** The line the scrape is about to render fits behind those it has rendered. */
  ghost predicate Fitting(s: State, line: nat, log0: seq<nat>) {
    && |s.lines| <= BUCKETS && Truth(log0)[|s.lines|] <= line <= Truth(s.log)[|s.lines|]
    && (s.lines == [] || s.lines[|s.lines| - 1] <= line)
  }

  lemma LoadedLineFits(s: State, log0: seq<nat>, summed0: seq<nat>)
    requires Shaped(s) && |s.lines| <= BUCKETS && |s.log| < WORD && Bracketed(s, log0, summed0)
    requires s.counts[|s.lines|] == InBucket(s.log, |s.lines|)
    ensures Fitting(s, Wrapped(s.cumulative + s.counts[|s.lines|]), log0)
  {
    NextLine(log0, s.log, |s.lines|, s.cumulative);
  }

  lemma LineAdded(s: State, line: nat, s': State, log0: seq<nat>, summed0: seq<nat>)
    requires Bracketed(s, log0, summed0) && Fitting(s, line, log0)
    requires s' == s.(lines := s.lines + [line], cumulative := line)
    ensures Bracketed(s', log0, summed0)
  {
    LineFollows(s.lines, line, Truth(log0), Truth(s.log));
  }

  lemma LoadKeepsBracket(s: State, s': State, log0: seq<nat>, summed0: seq<nat>)
    requires Shaped(s) && |s.lines| <= BUCKETS && |s.log| < WORD && Bracketed(s, log0, summed0)
    requires s.counts[|s.lines|] == InBucket(s.log, |s.lines|) && s' == Next(s, LoadBucket)
    ensures Bracketed(s', log0, summed0)
  {
    var line := Wrapped(s.cumulative + s.counts[|s.lines|]);
    assert Fitting(s, line, log0) by {
      LoadedLineFits(s, log0, summed0);
    }
    LineAdded(s, line, s', log0, summed0);
  }

  lemma BracketedKept(s: State, step: Step, s': State, log0: seq<nat>, summed0: seq<nat>)
    requires Counted(s) && InRange(s) && Bracketed(s, log0, summed0) && step != BeginScrape && s' == Next(s, step)
    ensures Bracketed(s', log0, summed0)
  {
    match step {
      case AddToBucket(d) =>
        TruthLater(s.log, s.log + [d]);
        BetweenLater(s.lines, Truth(log0), Truth(s.log), Truth(s.log + [d]));
      case AddToSum(d) =>
        InBucketAppend(s.summed, d, 0);
      case LoadBucket =>
        if |s.lines| <= BUCKETS {
          LoadKeepsBracket(s, s', log0, summed0);
        }
      case LoadSum =>
        LogGrows(summed0, s.summed, 0);
    }
  }

  // ---------------------------------------------------------------------- runs

  /** The registry as initialised. */
  ghost function Start(): (s: State)
    ensures Shaped(s)
  {
    State(seq(BUCKETS + 1, i => 0), 0, [], [], [], 0, 0, false)
  }

  /** Where any interleaving of observations and scrapes leads. */
  ghost function After(steps: seq<Step>): (s: State)
    ensures Shaped(s)
  {
    if steps == [] then Start() else Next(After(steps[..|steps| - 1]), steps[|steps| - 1])
  }

  lemma StepExtends(s: State, step: Step)
    requires Shaped(s)
    ensures s.log <= Next(s, step).log && s.summed <= Next(s, step).summed
  {
  }

  /** What has been observed stays observed. */
  lemma {:induction false} LogsExtend(steps: seq<Step>, k: nat)
    requires k <= |steps|
    ensures After(steps[..k]).log <= After(steps).log && After(steps[..k]).summed <= After(steps).summed
    decreases |steps|
  {
    if k < |steps| {
      var front, step := steps[..|steps| - 1], steps[|steps| - 1];
      LogsExtend(front, k);
      assert front[..k] == steps[..k];
      var s, mid := After(steps[..k]), After(front);
      assert After(steps) == Next(mid, step);
      StepExtends(mid, step);
      FrontOfFront(s.log, mid.log, Next(mid, step).log);
      FrontOfFront(s.summed, mid.summed, Next(mid, step).summed);
    } else {
      assert steps[..k] == steps;
    }
  }

  lemma RangeEarlier(steps: seq<Step>, k: nat)
    requires k <= |steps| && InRange(After(steps))
    ensures InRange(After(steps[..k]))
  {
    LogsExtend(steps, k);
    LogGrows(After(steps[..k]).summed, After(steps).summed, 0);
  }

  /** In every run the counters are what the observations make them, until one wraps. */
  lemma {:induction false} AlwaysCounted(steps: seq<Step>)
    requires InRange(After(steps))
    ensures Counted(After(steps))
  {
    if steps != [] {
      RangeEarlier(steps, |steps| - 1);
      AlwaysCounted(steps[..|steps| - 1]);
      CountedKept(After(steps[..|steps| - 1]), steps[|steps| - 1]);
    }
  }

  /** Step `b` began the scrape that is in progress, or finished, at the end. */
  ghost predicate Scraping(steps: seq<Step>, b: nat) {
    && b < |steps| && steps[b] == BeginScrape
    && forall m :: b < m < |steps| ==> steps[m] != BeginScrape
  }

  ghost predicate Complete(s: State) {
    |s.lines| == BUCKETS + 1 && s.sumLoaded
  }

  lemma BeginBrackets(s: State)
    requires Shaped(s)
    ensures Bracketed(Next(s, BeginScrape), s.log, s.summed)
  {
  }

  /** In the middle of any interleaving, the lines rendered so far lie between the truth when
      the scrape began, at `first`, and the truth now. */
  lemma {:induction false} ScrapeBracketed(steps: seq<Step>, b: nat, first: State, last: State)
    requires Scraping(steps, b) && first == After(steps[..b]) && last == After(steps) && InRange(last)
    ensures Bracketed(last, first.log, first.summed)
    decreases |steps|
  {
    var front, step := steps[..|steps| - 1], steps[|steps| - 1];
    var s := After(front);
    assert last == Next(s, step);
    if b < |front| {
      assert front[..b] == steps[..b];
      RangeEarlier(steps, |front|);
      AlwaysCounted(front);
      ScrapeBracketed(front, b, first, s);
      BracketedKept(s, step, last, first.log, first.summed);
    } else {
      BeginBrackets(first);
    }
  }

  // ---------------------------------------------------------------------- theorems

  lemma LinesRead(s: State, log0: seq<nat>, summed0: seq<nat>, i: nat, j: nat)
    requires Bracketed(s, log0, summed0) && Complete(s) && i <= j <= BUCKETS
    ensures AtMost(log0, i) <= s.lines[i] <= AtMost(s.log, i) && s.lines[i] <= s.lines[j] <= s.lines[BUCKETS]
    ensures s.lines[BUCKETS] == s.cumulative <= AtMost(s.log, BUCKETS)
    ensures Total(summed0) <= s.sumLine <= Total(s.summed)
  {
  }

  /** What could be counted at one point of a run can be counted at every later one. */
  lemma TruthGrows(steps: seq<Step>, k: nat, b: nat, i: nat)
    requires k <= b <= |steps|
    ensures AtMost(After(steps[..k]).log, i) <= AtMost(After(steps[..b]).log, i)
    ensures Total(After(steps[..k]).summed) <= Total(After(steps[..b]).summed)
  {
    assert steps[..b][..k] == steps[..k];
    LogsExtend(steps[..b], k);
    LogGrows(After(steps[..k]).log, After(steps[..b]).log, i);
    LogGrows(After(steps[..k]).summed, After(steps[..b]).summed, i);
  }

  /** A finished scrape, however observations fell between its loads: every bucket line
      counts the durations up to its bound, between the scrape's start and its end; lines
      do not decrease; and the total is the last line. */
  lemma ScrapeConsistent(steps: seq<Step>, b: nat, i: nat, j: nat)
    requires Scraping(steps, b) && InRange(After(steps)) && Complete(After(steps)) && i <= j <= BUCKETS
    ensures var first, last := After(steps[..b]), After(steps);
            && AtMost(first.log, i) <= last.lines[i] <= AtMost(last.log, i)
            && last.lines[i] <= last.lines[j] <= last.lines[BUCKETS] == last.cumulative <= |last.log|
            && Total(first.summed) <= last.sumLine <= Total(last.summed)
  {
    var first, last := After(steps[..b]), After(steps);
    ScrapeBracketed(steps, b, first, last);
    AtMostSplits(last.log, BUCKETS);
    LinesRead(last, first.log, first.summed, i, j);
  }

  /** Of two finished scrapes in one run, the second never shows less. */
  lemma ScrapesNeverGoBack(steps: seq<Step>, b1: nat, k: nat, b2: nat, i: nat)
    requires k <= b2 && Scraping(steps, b2) && Complete(After(steps)) && InRange(After(steps)) && i <= BUCKETS
    requires Scraping(steps[..k], b1) && Complete(After(steps[..k]))
    ensures var earlier, later := After(steps[..k]), After(steps);
            earlier.lines[i] <= later.lines[i] && earlier.sumLine <= later.sumLine
  {
    RangeEarlier(steps, k);
    ScrapeConsistent(steps[..k], b1, i, i);
    ScrapeConsistent(steps, b2, i, i);
    TruthGrows(steps, k, b2, i);
  }
}
