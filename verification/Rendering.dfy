/** The metrics page, in the Prometheus text exposition format 0.0.4, rendered into a
    buffer that may be too small for it, and the HTTP response that carries it. */
module Rendering {
  import opened Decimal
  import opened Kernel
  import opened Words
  import Histogram

  const MODEL_MAX: nat := 32
  const BODY_MAX: nat := 16384
  const HEAD_MAX: nat := 256

  // --------------------------------------------------------------------- the label

  predicate IsLabelChar(c: char) {
    'a' <= c <= 'z' || 'A' <= c <= 'Z' || '0' <= c <= '9' || c == '_' || c == '-'
  }

  predicate AllLabelChars(s: string) {
    forall i :: 0 <= i < |s| ==> IsLabelChar(s[i])
  }

  /** A label that needs no escaping and fits its buffer with the terminator. */
  predicate GoodLabel(tag: string) {
    0 < |tag| < MODEL_MAX && AllLabelChars(tag)
  }

  function Cut(s: string, n: nat): string {
    if |s| <= n then s else s[..n]
  }

  /** Only what fits the buffer is looked at, and one bad character in it spoils the name. */
  method SetModel(model: Option<string>) returns (tag: string)
    ensures GoodLabel(tag)
    ensures tag == if model.Some? && GoodLabel(Cut(model.value, MODEL_MAX - 1)) then Cut(model.value, MODEL_MAX - 1)
                   else "unknown"
  {
    var n := 0;
    if model.Some? {
      while n < |model.value| && n + 1 < MODEL_MAX
        invariant n <= |model.value| && n < MODEL_MAX && AllLabelChars(model.value[..n])
      {
        if !IsLabelChar(model.value[n]) {
          assert Cut(model.value, MODEL_MAX - 1)[n] == model.value[n];
          return "unknown";
        }
        n := n + 1;
      }
    }
    if n == 0 {
      return "unknown";
    }
    tag := model.value[..n];
    assert tag == Cut(model.value, MODEL_MAX - 1);
  }

  // ----------------------------------------------------------------------- the text

  /** Ten bounded buckets and the unbounded one. */
  type Lines = l: seq<nat> | |l| == 11 witness seq(11, i => 0)

  /** The values a scrape loaded.  Counters are unsigned and gauges signed 64-bit words. */
  datatype Snapshot = Snapshot(
    tag: string, accepted: nat, refused: nat, active: int, depth: nat, busy: int, lines: Lines, sum: nat)

  predicate Int64(x: int) {
    -0x8000_0000_0000_0000 <= x < 0x8000_0000_0000_0000
  }

  predicate Loadable(s: Snapshot) {
    && GoodLabel(s.tag) && s.accepted < WORD && s.refused < WORD && s.depth < WORD && s.sum < WORD
    && Int64(s.active) && Int64(s.busy)
    && forall i :: 0 <= i < 11 ==> s.lines[i] < WORD
  }

  /** The depth counter is unsigned but printed as a gauge. */
  function AsInt64(x: nat): int {
    if x < 0x8000_0000_0000_0000 then x else x - WORD
  }

  function Signed(x: int): string {
    if x < 0 then "-" + Numeral(-x) else Numeral(x)
  }

  function HelpLine(name: string, help: string): string {
    "# HELP " + name + " " + help + "\n"
  }

  function TypeLine(name: string, kind: string): string {
    "# TYPE " + name + " " + kind + "\n"
  }

  function Sample(name: string, tag: string, value: string): string {
    name + "{model=\"" + tag + "\"} " + value + "\n"
  }

  /** What a family of samples is called. */
  datatype Meta = Meta(name: string, help: string, kind: string)

  function Family(m: Meta, tag: string, value: string): string {
    HelpLine(m.name, m.help) + TypeLine(m.name, m.kind) + Sample(m.name, tag, value)
  }

  const ACCEPTED :=
    Meta("server_connections_accepted_total", "Connections accepted since process start.", "counter")
  const REFUSED :=
    Meta("server_connections_refused_total", "Connections refused because the server had no capacity.", "counter")
  const ACTIVE := Meta("server_connections_active", "Connections currently open.", "gauge")
  const DEPTH := Meta("server_pool_queue_depth", "Work items waiting in the thread pool queue.", "gauge")
  const BUSY := Meta("server_pool_workers_busy", "Worker threads serving a request.", "gauge")

  const LATENCY := "server_request_duration_seconds"

  const BOUND_NAMES: seq<string> :=
    ["0.00002", "0.00005", "0.0001", "0.00025", "0.0005", "0.001", "0.0025", "0.005", "0.01", "0.05"]

  function BucketLine(tag: string, bound: string, value: nat): string {
    LATENCY + "_bucket{model=\"" + tag + "\",le=\"" + bound + "\"} " + Numeral(value) + "\n"
  }

  function BucketLines(tag: string, lines: seq<nat>, n: nat): string
    requires n <= |BOUND_NAMES| && n <= |lines|
  {
    if n == 0 then "" else BucketLines(tag, lines, n - 1) + BucketLine(tag, BOUND_NAMES[n - 1], lines[n - 1])
  }

  /** Nanoseconds printed as seconds with nine decimals. */
  function Seconds(ns: nat): string {
    Numeral(ns / 1_000_000_000) + "." + Padded(ns % 1_000_000_000, 9)
  }

  /** No nanosecond is lost: the digits on both sides of the point give the sum back. */
  lemma SecondsExact(ns: nat)
    ensures var whole := Numeral(ns / 1_000_000_000);
            var rest := Seconds(ns)[|whole| + 1..];
            && Seconds(ns)[..|whole| + 1] == whole + "." && |rest| == 9 && AllDigits(rest)
            && Value(whole) * 1_000_000_000 + Value(rest) == ns
  {
    var whole, part := Numeral(ns / 1_000_000_000), Padded(ns % 1_000_000_000, 9);
    assert Seconds(ns)[|whole| + 1..] == part;
    NumeralRoundTrip(ns / 1_000_000_000);
    assert Pow10(9) == 1_000_000_000 by {
      Pow10Split(3, 3);
      Pow10Split(6, 3);
      assert Pow10(2) == 100 && Pow10(3) == 1000;
    }
    PaddedRoundTrip(ns % 1_000_000_000, 9);
  }

  const LATENCY_HELP := "Request service time in seconds."

  function LatencyHead(): (t: string)
    ensures t != ""
  {
    HelpLine(LATENCY, LATENCY_HELP) + TypeLine(LATENCY, "histogram")
  }

  function LatencyTail(tag: string, last: nat, sum: nat): string {
    BucketLine(tag, "+Inf", last) + Sample(LATENCY + "_sum", tag, Seconds(sum)) +
    Sample(LATENCY + "_count", tag, Numeral(last))
  }

  function LatencyFront(tag: string, lines: Lines): string {
    LatencyHead() + BucketLines(tag, lines, |lines| - 1)
  }

  function Latency(tag: string, lines: Lines, sum: nat): string {
    LatencyFront(tag, lines) + LatencyTail(tag, lines[10], sum)
  }

  function AcceptedText(s: Snapshot): string {
    Family(ACCEPTED, s.tag, Numeral(s.accepted))
  }

  function RefusedText(s: Snapshot): string {
    Family(REFUSED, s.tag, Numeral(s.refused))
  }

  function ActiveText(s: Snapshot): string {
    Family(ACTIVE, s.tag, Signed(s.active))
  }

  function DepthText(s: Snapshot): string {
    Family(DEPTH, s.tag, Signed(AsInt64(s.depth)))
  }

  function BusyText(s: Snapshot): string {
    Family(BUSY, s.tag, Signed(s.busy))
  }

  function Counters(s: Snapshot): string {
    AcceptedText(s) + RefusedText(s)
  }

  function Gauges(s: Snapshot): string {
    ActiveText(s) + DepthText(s) + BusyText(s)
  }

  function Body(s: Snapshot): string {
    Counters(s) + Gauges(s) + Latency(s.tag, s.lines, s.sum)
  }

  // ---------------------------------------------------------------- how long it is

  lemma SignedLength(x: int)
    requires Int64(x)
    ensures |Signed(x)| <= 21
  {
    WordFitsTwentyDigits(if x < 0 then -x else x);
  }

  lemma FamilyLength(m: Meta, tag: string, value: string)
    requires |m.name| <= 40 && |m.help| <= 60 && |m.kind| <= 10 && |tag| < MODEL_MAX && |value| <= 21
    ensures |Family(m, tag, value)| <= 300
  {
    assert |HelpLine(m.name, m.help)| == 9 + |m.name| + |m.help|;
    assert |TypeLine(m.name, m.kind)| == 9 + |m.name| + |m.kind|;
    assert |Sample(m.name, tag, value)| == 12 + |m.name| + |tag| + |value|;
  }

  lemma BucketLineLength(tag: string, bound: string, value: nat)
    requires |tag| < MODEL_MAX && |bound| <= 10 && value < WORD
    ensures |BucketLine(tag, bound, value)| <= 140
  {
    WordFitsTwentyDigits(value);
    assert |LATENCY| == 31;
    assert |"_bucket{model=\""| == 15 && |"\",le=\""| == 6 && |"\"} "| == 3;
  }

  lemma {:induction false} BucketLinesLength(tag: string, lines: seq<nat>, n: nat)
    requires n <= |BOUND_NAMES| && n <= |lines| && |tag| < MODEL_MAX && forall i :: 0 <= i < |lines| ==> lines[i] < WORD
    ensures |BucketLines(tag, lines, n)| <= 140 * n
  {
    if n > 0 {
      BucketLinesLength(tag, lines, n - 1);
      BucketLineLength(tag, BOUND_NAMES[n - 1], lines[n - 1]);
    }
  }

  lemma LatencyTailLength(tag: string, last: nat, sum: nat)
    requires |tag| < MODEL_MAX && last < WORD && sum < WORD
    ensures |LatencyTail(tag, last, sum)| <= 500
  {
    BucketLineLength(tag, "+Inf", last);
    WordFitsTwentyDigits(last);
    WordFitsTwentyDigits(sum / 1_000_000_000);
    assert |LATENCY + "_sum"| == 35 && |LATENCY + "_count"| == 37;
    assert |Seconds(sum)| <= 30;
    assert |Sample(LATENCY + "_sum", tag, Seconds(sum))| == 12 + 35 + |tag| + |Seconds(sum)|;
    assert |Sample(LATENCY + "_count", tag, Numeral(last))| == 12 + 37 + |tag| + |Numeral(last)|;
  }

  lemma FamiliesLength(s: Snapshot)
    requires Loadable(s)
    ensures |AcceptedText(s)| <= 300 && |RefusedText(s)| <= 300 && |ActiveText(s)| <= 300
    ensures |DepthText(s)| <= 300 && |BusyText(s)| <= 300
  {
    WordFitsTwentyDigits(s.accepted);
    WordFitsTwentyDigits(s.refused);
    SignedLength(s.active);
    SignedLength(AsInt64(s.depth));
    SignedLength(s.busy);
    FamilyLength(ACCEPTED, s.tag, Numeral(s.accepted));
    FamilyLength(REFUSED, s.tag, Numeral(s.refused));
    FamilyLength(ACTIVE, s.tag, Signed(s.active));
    FamilyLength(DEPTH, s.tag, Signed(AsInt64(s.depth)));
    FamilyLength(BUSY, s.tag, Signed(s.busy));
  }

  /** Whatever the counters hold and whatever the label, the page fits the server's buffer. */
  lemma BodyFits(s: Snapshot)
    requires Loadable(s)
    ensures |Body(s)| < BODY_MAX
  {
    FamiliesLength(s);
    BucketLinesLength(s.tag, s.lines, |s.lines| - 1);
    LatencyTailLength(s.tag, s.lines[10], s.sum);
    assert |LatencyHead()| <= 200 by {
      assert |HelpLine(LATENCY, LATENCY_HELP)| == 9 + |LATENCY| + 32;
      assert |TypeLine(LATENCY, "histogram")| == 9 + |LATENCY| + 9;
      assert |LATENCY| == 31;
    }
  }

  // ------------------------------------------------------------ the truncating writer

  /** The buffer holds as much of `text` as fits beside the terminator. */
  ghost predicate Shows(buf: seq<char>, cap: nat, text: string) {
    cap <= |buf| &&
    (cap > 0 ==> var n := Min(|text|, cap - 1); buf[..n] == text[..n] && buf[n] == '\0')
  }

  /** The same, with `len` the length of all of it. */
  ghost predicate Holds(buf: seq<char>, cap: nat, len: nat, text: string) {
    len == |text| && Shows(buf, cap, text)
  }

  /** `text` has been written to the buffer so far, or nothing has. */
  ghost predicate Written(buf: seq<char>, cap: nat, text: string) {
    cap <= |buf| && (text == "" || Shows(buf, cap, text))
  }

  lemma ShowsFront(buf: seq<char>, cap: nat, text: string, n: nat)
    requires 0 < cap <= |buf| && n == Min(|text|, cap - 1) && buf[n] == '\0'
    requires forall i :: 0 <= i < n ==> buf[i] == text[i]
    ensures Shows(buf, cap, text)
  {
  }

  lemma ShowsMore(buf: seq<char>, cap: nat, before: string, text: string)
    requires cap <= |buf| && (cap > 0 ==> Shows(buf, cap, before)) && cap <= |before|
    ensures Shows(buf, cap, before + text)
  {
    assert cap > 0 ==> (before + text)[..cap - 1] == before[..cap - 1];
  }

  /** One formatted write: it stops at the end of the buffer but keeps counting. */
  method Appendf(out: array<char>, cap: nat, len: nat, text: string, ghost before: string) returns (newLen: nat)
    requires len == |before| && Written(out[..], cap, before)
    modifies out
    ensures Holds(out[..], cap, newLen, before + text)
  {
    if len < cap {
      var n := Min(|text|, cap - len - 1);
      forall i | 0 <= i < n {
        out[len + i] := text[i];
      }
      out[len + n] := '\0';
      forall i | 0 <= i < len + n
        ensures out[i] == (before + text)[i]
      {
        assert i < len ==> out[i] == old(out[..])[..len][i];
      }
      ShowsFront(out[..], cap, before + text, len + n);
    } else {
      ShowsMore(out[..], cap, before, text);
    }
    newLen := len + |text|;
  }

  lemma Grouped(a: string, b: string, c: string, d: string)
    ensures a + b + c == a + (b + c) && a + b + c + d == a + (b + c + d)
  {
    assert a + b + c == a + (b + c);
    assert a + b + c + d == a + (b + c + d);
  }

  lemma MiddleOf(a: string, b: string, c: string)
    ensures (a + b + c)[|a|..|a + b + c| - |c|] == b
  {
  }

  lemma ShowsAll(buf: seq<char>, cap: nat, text: string)
    requires Shows(buf, cap, text) && |text| < cap
    ensures buf[..|text|] == text
  {
    assert text[..|text|] == text;
  }

  /** Three formatted writes in a row. */
  method AppendThree(
    out: array<char>, cap: nat, len: nat, a: string, b: string, c: string, ghost before: string)
    returns (newLen: nat)
    requires len == |before| && Written(out[..], cap, before)
    modifies out
    ensures Holds(out[..], cap, newLen, before + (a + b + c))
  {
    newLen := Appendf(out, cap, len, a, before);
    newLen := Appendf(out, cap, newLen, b, before + a);
    newLen := Appendf(out, cap, newLen, c, before + a + b);
    Grouped(before, a, b, c);
  }

  /** render_counter and render_gauge, which differ in `kind` and in how `value` was printed. */
  method RenderFamily(
    out: array<char>, cap: nat, len: nat, m: Meta, tag: string, value: string, ghost before: string)
    returns (newLen: nat)
    requires len == |before| && Written(out[..], cap, before)
    modifies out
    ensures Holds(out[..], cap, newLen, before + Family(m, tag, value))
  {
    var help, kind, sample := HelpLine(m.name, m.help), TypeLine(m.name, m.kind), Sample(m.name, tag, value);
    newLen := AppendThree(out, cap, len, help, kind, sample, before);
  }

  method RenderBucket(
    out: array<char>, cap: nat, len: nat, tag: string, lines: seq<nat>, i: nat, ghost before: string)
    returns (newLen: nat)
    requires i < |BOUND_NAMES| && i < |lines| && len == |before + BucketLines(tag, lines, i)|
    requires Written(out[..], cap, before + BucketLines(tag, lines, i))
    modifies out
    ensures Holds(out[..], cap, newLen, before + BucketLines(tag, lines, i + 1))
  {
    ghost var sofar := BucketLines(tag, lines, i);
    var line := BucketLine(tag, BOUND_NAMES[i], lines[i]);
    newLen := Appendf(out, cap, len, line, before + sofar);
    Grouped(before, sofar, line, "");
  }

  method RenderBuckets(
    out: array<char>, cap: nat, len: nat, tag: string, lines: Lines, ghost before: string)
    returns (newLen: nat)
    requires len == |before| && Written(out[..], cap, before) && before != ""
    modifies out
    ensures Holds(out[..], cap, newLen, before + BucketLines(tag, lines, |lines| - 1))
  {
    newLen := len;
    assert before + "" == before;
    for i := 0 to |lines| - 1
      invariant Holds(out[..], cap, newLen, before + BucketLines(tag, lines, i))
    {
      newLen := RenderBucket(out, cap, newLen, tag, lines, i, before);
    }
  }

  method RenderLatencyHead(out: array<char>, cap: nat, len: nat, ghost before: string) returns (newLen: nat)
    requires len == |before| && Written(out[..], cap, before)
    modifies out
    ensures Holds(out[..], cap, newLen, before + LatencyHead())
  {
    var help, kind := HelpLine(LATENCY, LATENCY_HELP), TypeLine(LATENCY, "histogram");
    newLen := Appendf(out, cap, len, help, before);
    newLen := Appendf(out, cap, newLen, kind, before + help);
    Grouped(before, help, kind, "");
  }

  method RenderLatencyTail(
    out: array<char>, cap: nat, len: nat, tag: string, last: nat, sum: nat, ghost before: string)
    returns (newLen: nat)
    requires len == |before| && Written(out[..], cap, before)
    modifies out
    ensures Holds(out[..], cap, newLen, before + LatencyTail(tag, last, sum))
  {
    newLen := AppendThree(out, cap, len, BucketLine(tag, "+Inf", last), Sample(LATENCY + "_sum", tag, Seconds(sum)),
                          Sample(LATENCY + "_count", tag, Numeral(last)), before);
  }

  method RenderLatencyFront(out: array<char>, cap: nat, len: nat, tag: string, lines: Lines, ghost before: string)
    returns (newLen: nat, ghost text: string)
    requires len == |before| && Written(out[..], cap, before)
    modifies out
    ensures Holds(out[..], cap, newLen, text) && text != ""
    ensures text == before + LatencyFront(tag, lines)
  {
    ghost var head, middle := LatencyHead(), BucketLines(tag, lines, |lines| - 1);
    newLen := RenderLatencyHead(out, cap, len, before);
    text := before + head;
    newLen := RenderBuckets(out, cap, newLen, tag, lines, text);
    Grouped(before, head, middle, "");
    text := text + middle;
  }

  method RenderLatency(out: array<char>, cap: nat, len: nat, s: Snapshot, ghost before: string)
    returns (newLen: nat, ghost text: string)
    requires len == |before| && Written(out[..], cap, before)
    modifies out
    ensures Holds(out[..], cap, newLen, text)
    ensures text == before + Latency(s.tag, s.lines, s.sum)
  {
    newLen, text := RenderLatencyFront(out, cap, len, s.tag, s.lines, before);
    newLen := RenderLatencyTail(out, cap, newLen, s.tag, s.lines[10], s.sum, text);
    ghost var front, tail := LatencyFront(s.tag, s.lines), LatencyTail(s.tag, s.lines[10], s.sum);
    Grouped(before, front, tail, "");
    text := text + tail;
  }

  /** The last byte of a full buffer is its terminator, as it already was. */
  method Terminate(out: array<char>, cap: nat, len: nat, ghost text: string)
    requires Holds(out[..], cap, len, text)
    modifies out
    ensures out[..] == old(out[..])
  {
    if cap > 0 && len >= cap {
      out[cap - 1] := '\0';
    }
  }

  method RenderCounters(out: array<char>, cap: nat, s: Snapshot) returns (len: nat)
    requires cap <= out.Length
    modifies out
    ensures Holds(out[..], cap, len, Counters(s))
  {
    len := RenderFamily(out, cap, 0, ACCEPTED, s.tag, Numeral(s.accepted), "");
    ghost var accepted := AcceptedText(s);
    assert "" + accepted == accepted;
    len := RenderFamily(out, cap, len, REFUSED, s.tag, Numeral(s.refused), accepted);
  }

  method RenderGauges(out: array<char>, cap: nat, len: nat, s: Snapshot, ghost before: string) returns (newLen: nat)
    requires len == |before| && Written(out[..], cap, before)
    modifies out
    ensures Holds(out[..], cap, newLen, before + Gauges(s))
  {
    ghost var active, depth, busy := ActiveText(s), DepthText(s), BusyText(s);
    newLen := RenderFamily(out, cap, len, ACTIVE, s.tag, Signed(s.active), before);
    newLen := RenderFamily(out, cap, newLen, DEPTH, s.tag, Signed(AsInt64(s.depth)), before + active);
    newLen := RenderFamily(out, cap, newLen, BUSY, s.tag, Signed(s.busy), before + active + depth);
    Grouped(before, active, depth, busy);
  }

  method RenderFamilies(out: array<char>, cap: nat, s: Snapshot) returns (len: nat, ghost text: string)
    requires cap <= out.Length
    modifies out
    ensures Holds(out[..], cap, len, text)
    ensures text == Counters(s) + Gauges(s)
  {
    text := Counters(s) + Gauges(s);
    len := RenderCounters(out, cap, s);
    len := RenderGauges(out, cap, len, s, Counters(s));
  }

  /** The last family and the termination of the page. */
  method RenderRest(out: array<char>, cap: nat, len: nat, s: Snapshot, ghost before: string)
    returns (newLen: nat, ghost text: string)
    requires len == |before| && Written(out[..], cap, before)
    modifies out
    ensures Holds(out[..], cap, newLen, text)
    ensures text == before + Latency(s.tag, s.lines, s.sum)
  {
    newLen, text := RenderLatency(out, cap, len, s, before);
    Terminate(out, cap, newLen, text);
  }

  /** The whole page.  The length returned does not depend on the room given, and what room
      there is holds a front of the page, terminated. */
  method MetricsRender(out: array<char>, cap: nat, s: Snapshot) returns (len: nat, ghost page: string)
    requires cap <= out.Length
    modifies out
    ensures Holds(out[..], cap, len, page)
    ensures page == Body(s)
  {
    ghost var families;
    len, families := RenderFamilies(out, cap, s);
    len, page := RenderRest(out, cap, len, s, families);
  }

  // ------------------------------------------------------- the page of a finished scrape

  /** The latency values of the snapshot are those the scrape begun at step `b` ended with. */
  ghost predicate Scraped(s: Snapshot, steps: seq<Histogram.Step>, b: nat) {
    && Histogram.Scraping(steps, b) && Histogram.InRange(Histogram.After(steps))
    && Histogram.Complete(Histogram.After(steps))
    && s.lines == Histogram.After(steps).lines && s.sum == Histogram.After(steps).sumLine
  }

  lemma BoundDigits(i: nat) returns (zeros: nat, value: string)
    requires i < |BOUND_NAMES|
    ensures var digits := BOUND_NAMES[i][2..];
            && BOUND_NAMES[i][..2] == "0." && AllDigits(digits) && zeros <= |digits| <= 5 && digits[zeros..] == value
            && |digits| == zeros + |value| && forall k :: 0 <= k < zeros ==> digits[k] == '0'
    ensures zeros == [4, 4, 3, 3, 3, 2, 2, 2, 1, 1][i]
    ensures value == ["2", "5", "1", "25", "5", "1", "25", "5", "1", "5"][i]
  {
    zeros := [4, 4, 3, 3, 3, 2, 2, 2, 1, 1][i];
    value := ["2", "5", "1", "25", "5", "1", "25", "5", "1", "5"][i];
  }

  lemma BoundValue(i: nat, zeros: nat, value: string)
    requires i < 10 && zeros == [4, 4, 3, 3, 3, 2, 2, 2, 1, 1][i]
    requires value == ["2", "5", "1", "25", "5", "1", "25", "5", "1", "5"][i]
    ensures AllDigits(value) && zeros + |value| <= 5
    ensures Value(value) * Pow10(9 - (zeros + |value|)) == Histogram.BOUNDS[i]
  {
    assert Value("1") == 1 && Value("2") == 2 && Value("5") == 5 && Value("25") == 25;
    assert Pow10(4) == 10000 && Pow10(5) == 100000 && Pow10(6) == 1000000 && Pow10(7) == 10000000;
  }

  /** The bound printed for a bucket is the bound it is kept for, in seconds. */
  lemma BoundNamesTrue(i: nat)
    requires i < |BOUND_NAMES|
    ensures var digits := BOUND_NAMES[i][2..];
            && BOUND_NAMES[i][..2] == "0." && AllDigits(digits) && |digits| <= 9
            && Value(digits) * Pow10(9 - |digits|) == Histogram.BOUNDS[i]
  {
    var zeros, value := BoundDigits(i);
    LeadingZeros(BOUND_NAMES[i][2..], zeros);
    BoundValue(i, zeros, value);
  }

  function LineFor(s: Snapshot, i: nat): string
    requires i <= |BOUND_NAMES|
  {
    BucketLine(s.tag, if i < |BOUND_NAMES| then BOUND_NAMES[i] else "+Inf", s.lines[i])
  }

  function CountLine(s: Snapshot): string {
    Sample(LATENCY + "_count", s.tag, Numeral(s.lines[10]))
  }

  function SumLine(s: Snapshot): string {
    Sample(LATENCY + "_sum", s.tag, Seconds(s.sum))
  }

  ghost predicate Contains(text: string, part: string) {
    exists before, after :: text == before + part + after
  }

  lemma ContainsWithin(text: string, a: string, middle: string, c: string, part: string)
    requires text == a + middle + c && Contains(middle, part)
    ensures Contains(text, part)
  {
    var before, after :| middle == before + part + after;
    assert text == (a + before) + part + (after + c);
  }

  lemma EndsWith(front: string, line: string)
    ensures Contains(front + line, line)
  {
    assert front + line == front + line + "";
  }

  lemma FrontContains(front: string, line: string, part: string)
    requires Contains(front, part)
    ensures Contains(front + line, part)
  {
    assert front + line == "" + front + line;
    ContainsWithin(front + line, "", front, line, part);
  }

  lemma {:induction false} BucketLinesContain(tag: string, lines: seq<nat>, n: nat, i: nat)
    requires i < n <= |BOUND_NAMES| && n <= |lines|
    ensures Contains(BucketLines(tag, lines, n), BucketLine(tag, BOUND_NAMES[i], lines[i]))
  {
    var front, line := BucketLines(tag, lines, n - 1), BucketLine(tag, BOUND_NAMES[n - 1], lines[n - 1]);
    if i == n - 1 {
      EndsWith(front, line);
    } else {
      BucketLinesContain(tag, lines, n - 1, i);
      FrontContains(front, line, BucketLine(tag, BOUND_NAMES[i], lines[i]));
    }
  }

  lemma PiecesContained(a: string, b: string, c: string, d: string, e: string)
    ensures var text := a + b + (c + d + e); Contains(text, c) && Contains(text, d) && Contains(text, e)
  {
    assert a + b + (c + d + e) == (a + b + c) + d + e;
    assert a + b + (c + d + e) == (a + b) + c + (d + e);
    assert a + b + (c + d + e) == (a + b + c + d) + e + "";
  }

  /** Every bucket has its line, and the count repeats the last one. */
  lemma LatencyContains(s: Snapshot, i: nat)
    requires i <= |BOUND_NAMES|
    ensures Contains(Latency(s.tag, s.lines, s.sum), LineFor(s, i))
    ensures Contains(Latency(s.tag, s.lines, s.sum), CountLine(s))
    ensures Contains(Latency(s.tag, s.lines, s.sum), SumLine(s))
  {
    var head, buckets := LatencyHead(), BucketLines(s.tag, s.lines, |s.lines| - 1);
    var last := BucketLine(s.tag, "+Inf", s.lines[10]);
    var total, count := SumLine(s), CountLine(s);
    PiecesContained(head, buckets, last, total, count);
    if i < |BOUND_NAMES| {
      BucketLinesContain(s.tag, s.lines, |s.lines| - 1, i);
      ContainsWithin(head + buckets + (last + total + count), head, buckets, last + total + count, LineFor(s, i));
    }
  }

  lemma AtTheEnd(front: string, last: string, part: string)
    requires Contains(last, part)
    ensures Contains(front + last, part)
  {
    assert front + last == front + last + "";
    ContainsWithin(front + last, front, last, "", part);
  }

  lemma BodyContains(s: Snapshot, i: nat) returns (page: string)
    requires i <= |BOUND_NAMES|
    ensures Contains(page, LineFor(s, i)) && Contains(page, CountLine(s)) && Contains(page, SumLine(s))
    ensures page == Body(s)
  {
    LatencyContains(s, i);
    var front, latency := Counters(s) + Gauges(s), Latency(s.tag, s.lines, s.sum);
    AtTheEnd(front, latency, LineFor(s, i));
    AtTheEnd(front, latency, CountLine(s));
    AtTheEnd(front, latency, SumLine(s));
    page := front + latency;
  }

  lemma ScrapedValues(s: Snapshot, steps: seq<Histogram.Step>, b: nat, i: nat, j: nat)
    requires Scraped(s, steps, b) && i <= j <= |BOUND_NAMES|
    ensures var first, last := Histogram.After(steps[..b]), Histogram.After(steps);
            && Histogram.AtMost(first.log, i) <= s.lines[i] <= Histogram.AtMost(last.log, i)
            && s.lines[i] <= s.lines[j] < WORD && s.sum < WORD
            && Histogram.Total(first.summed) <= s.sum <= Histogram.Total(last.summed)
  {
    Histogram.ScrapeConsistent(steps, b, i, j);
  }

  /** What a page rendered from a finished scrape shows, however observations fell between the
      loads: for every bucket a line whose value counts the durations up to its bound, between
      the scrape's start and its end; values that do not decrease; a count equal to the last; and
      a sum between what it was at the start and at the end. */
  lemma PageShowsScrape(s: Snapshot, steps: seq<Histogram.Step>, b: nat, i: nat, j: nat) returns (page: string)
    requires Scraped(s, steps, b) && i <= j <= |BOUND_NAMES|
    ensures Contains(page, LineFor(s, i)) && Contains(page, CountLine(s)) && Contains(page, SumLine(s))
    ensures var first, last := Histogram.After(steps[..b]), Histogram.After(steps);
            && Histogram.AtMost(first.log, i) <= s.lines[i] <= Histogram.AtMost(last.log, i)
            && s.lines[i] <= s.lines[j] < WORD && s.sum < WORD
            && Histogram.Total(first.summed) <= s.sum <= Histogram.Total(last.summed)
    ensures page == Body(s)
  {
    ScrapedValues(s, steps, b, i, j);
    page := BodyContains(s, i);
  }

  // --------------------------------------------------------------------- the response

  const HEAD_BEFORE := "HTTP/1.1 200 OK\r\nContent-Type: text/plain; version=0.0.4; charset=utf-8\r\nContent-Length: "
  const HEAD_AFTER := "\r\nConnection: close\r\n\r\n"

  function Head(length: nat): string {
    HEAD_BEFORE + Numeral(length) + HEAD_AFTER
  }

  lemma HeadFits(length: nat)
    requires length < BODY_MAX
    ensures |Head(length)| < HEAD_MAX
  {
    WordFitsTwentyDigits(length);
    assert |HEAD_BEFORE| <= 100;
    assert |HEAD_AFTER| <= 30;
  }

  lemma FrontOf(head: string, body: string, n: nat)
    requires n <= |body|
    ensures head + body[..n] <= head + body && (n == |body| ==> head + body[..n] == head + body)
    ensures forall k :: 0 <= k <= |head| ==> head[..k] <= head + body
  {
    assert body[..|body|] == body;
  }

  const STATUS_500 :=
    "HTTP/1.1 500 Internal Server Error\r\n" +
    "Content-Type: text/plain; charset=utf-8\r\nContent-Length: 25\r\nConnection: close\r\n\r\n"
  const TOO_SMALL := "metrics buffer too small\n"

  /** What is sent for a page: the page itself, or the error for one that does not fit. */
  ghost function Response(page: string): string {
    if |page| < BODY_MAX then Head(|page|) + page else STATUS_500 + TOO_SMALL
  }

  /** Head, then body if the head went out whole. */
  method SendBoth(head: string, body: string, calls: nat) returns (wire: string, ok: bool)
    ensures wire <= head + body && (ok ==> wire == head + body)
  {
    var sent, end := WriteAll(|head|, calls);
    wire, ok := head[..sent], false;
    FrontOf(head, body, 0);
    if end.Whole? {
      sent, end := WriteAll(|body|, calls);
      wire, ok := head + body[..sent], end.Whole?;
      FrontOf(head, body, sent);
    }
  }

  /** Sends the page the buffer holds.  A failed send leaves a front of the response behind. */
  method SendPage(buf: array<char>, bodyLen: nat, calls: nat, ghost page: string) returns (wire: string, ok: bool)
    requires Shows(buf[..], BODY_MAX, page) && bodyLen == |page|
    ensures wire <= Response(page) && (ok ==> wire == Response(page))
  {
    if bodyLen >= BODY_MAX {
      wire, ok := SendBoth(STATUS_500, TOO_SMALL, calls);
      return;
    }
    HeadFits(bodyLen);
    ShowsAll(buf[..], BODY_MAX, page);
    if |Head(bodyLen)| < HEAD_MAX {
      wire, ok := SendBoth(Head(bodyLen), buf[..bodyLen], calls);
    } else {
      assert false;
    }
  }

  /** A page that fits goes out under its true length. */
  method SendWhole(buf: array<char>, len: nat, calls: nat, ghost page: string) returns (wire: string, ok: bool)
    requires Shows(buf[..], BODY_MAX, page) && len == |page| < BODY_MAX
    ensures wire <= Head(|page|) + page && (ok ==> wire == Head(|page|) + page)
  {
    wire, ok := SendPage(buf, len, calls, page);
  }

  /** The page in a buffer of the server's size, which is always enough. */
  method RenderPage(s: Snapshot) returns (buf: array<char>, len: nat, ghost page: string)
    requires Loadable(s)
    ensures Shows(buf[..], BODY_MAX, page) && len == |page| < BODY_MAX
    ensures page == Body(s)
  {
    buf := new char[BODY_MAX];
    len, page := MetricsRender(buf, BODY_MAX, s);
    BodyFits(s);
  }

  /** Renders and sends.  Whatever the counters hold, the page is sent and never the error. */
  method SendMetrics(s: Snapshot, calls: nat) returns (wire: string, ok: bool, ghost page: string)
    requires Loadable(s)
    ensures wire <= Head(|page|) + page && (ok ==> wire == Head(|page|) + page)
    ensures page == Body(s)
  {
    var body, len;
    body, len, page := RenderPage(s);
    wire, ok := SendWhole(body, len, calls, page);
  }

  /** A client that believes Content-Length reads exactly what follows the head. */
  lemma ContentLengthTrue(length: nat)
    ensures Value(Numeral(length)) == length
    ensures |HEAD_BEFORE| <= |Head(length)| - |HEAD_AFTER| <= |Head(length)|
    ensures Head(length)[|HEAD_BEFORE|..|Head(length)| - |HEAD_AFTER|] == Numeral(length)
  {
    NumeralRoundTrip(length);
    MiddleOf(HEAD_BEFORE, Numeral(length), HEAD_AFTER);
  }
}
