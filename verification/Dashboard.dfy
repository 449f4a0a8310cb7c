/** The dashboard's aggregation of audit samples (pkg/plugin/dashboard.go). */
module Dashboard {
  import opened Common

  /** `createdAt` is in nanoseconds. */
  datatype Sample = Sample(
    status: int, model: Text, promptTokens: int, completionTokens: int, totalTokens: int, durationMs: int,
    isStream: bool, createdAt: int)

  /** The label under which calls without a model name are counted, in UTF-8. */
  const UNNAMED: Text := [0xE6, 0x9C, 0xAA, 0xE6, 0x8C, 0x87, 0xE5, 0xAE, 0x9A]

  const TOP_MODELS: nat := 8

  function Name(s: Sample): Text {
    if s.model == [] then UNNAMED else s.model
  }

  predicate IsSuccess(status: int) {
    200 <= status < 400
  }

  /** The five status classes in their order: 2xx, 3xx, 4xx, 5xx and other. */
  const CLASSES: nat := 5

  /** Go's integer division drops the fraction, towards zero. */
  function Quotient(a: int, b: int): int
    requires b > 0
  {
    if a >= 0 then a / b else -((-a) / b)
  }

  function StatusClass(status: int): (c: nat)
    ensures c < CLASSES
  {
    var hundreds := Quotient(status, 100);
    if 2 <= hundreds <= 5 then hundreds - 2 else 4
  }

  /** The upper bounds of the latency buckets but the last, in milliseconds. */
  const BOUNDS: seq<int> := [100, 300, 1000, 3000, 10000]

  const BUCKETS: nat := 6

  // ----- What is counted -----

  datatype Metric =
    | Success | Tokens | Latency | PromptTokens | CompletionTokens
    | Streamed(stream: bool) | StreamedTokens(stream: bool)
    | InClass(class_: nat) | InBucket(bucket: nat)
    | AtMost(ms: int) | Below(ms: int)
    | RequestsOf(name: Text) | TokensOf(name: Text) | FailedOf(name: Text)
    | InSpan(from: int, to: int) | TokensInSpan(from: int, to: int)

  function One(b: bool): nat {
    if b then 1 else 0
  }

  /** A bucket holds the durations from the previous bound, included, up to its own. */
  predicate FallsIn(ms: int, bucket: nat) {
    && (0 < bucket <= |BOUNDS| ==> BOUNDS[bucket - 1] <= ms)
    && (bucket < |BOUNDS| ==> ms < BOUNDS[bucket])
    && bucket <= |BOUNDS|
  }

  function Weight(m: Metric, s: Sample): int {
    match m
    case Success => One(IsSuccess(s.status))
    case Tokens => s.totalTokens
    case Latency => s.durationMs
    case PromptTokens => s.promptTokens
    case CompletionTokens => s.completionTokens
    case Streamed(stream) => One(s.isStream == stream)
    case StreamedTokens(stream) => if s.isStream == stream then s.totalTokens else 0
    case InClass(c) => One(StatusClass(s.status) == c)
    case InBucket(b) => One(FallsIn(s.durationMs, b))
    case AtMost(ms) => One(s.durationMs <= ms)
    case Below(ms) => One(s.durationMs < ms)
    case RequestsOf(name) => One(Name(s) == name)
    case TokensOf(name) => if Name(s) == name then s.totalTokens else 0
    case FailedOf(name) => One(Name(s) == name && !IsSuccess(s.status))
    case InSpan(from, to) => One(from <= s.createdAt < to)
    case TokensInSpan(from, to) => if from <= s.createdAt < to then s.totalTokens else 0
  }

  function Sum(m: Metric, samples: seq<Sample>): int {
    if samples == [] then 0 else Sum(m, samples[..|samples| - 1]) + Weight(m, samples[|samples| - 1])
  }

  lemma SumSnoc(m: Metric, samples: seq<Sample>, i: nat)
    requires i < |samples|
    ensures Sum(m, samples[..i + 1]) == Sum(m, samples[..i]) + Weight(m, samples[i])
  {
    assert samples[..i + 1][..i] == samples[..i];
  }

  // ----- Results -----

  datatype LatencyStats = LatencyStats(p50: int, p95: int, p99: int, buckets: seq<int>)

  datatype ModelStat = ModelStat(name: Text, requests: int, tokens: int, failed: int)

  datatype TokenSplit = TokenSplit(
    promptTokens: int, completionTokens: int, streamRequests: int, nonStreamRequests: int,
    streamTokens: int, nonStreamTokens: int)

  datatype Summary = Summary(requests: int, successRate: real, failed: int, tokens: int, avgLatencyMs: int)

  datatype TrendPoint = TrendPoint(date: string, requests: int, tokens: int)

  datatype Alert = Alert(level: string, title: string, detail: string, link: string)

  /** The alerts are filled in by others. */
  datatype Data = Data(
    summary: Summary, latency: LatencyStats, status: seq<int>, topModels: seq<ModelStat>, tokens: TokenSplit,
    truncated: bool, alerts: seq<Alert>, trend: seq<TrendPoint>)

  /** A sampled duration with at least k percent of the samples at or below it and fewer than that below. */
  predicate IsPercentile(v: int, samples: seq<Sample>, k: int) {
    && (exists s :: s in samples && s.durationMs == v)
    && 100 * Sum(AtMost(v), samples) >= k * |samples|
    && 100 * Sum(Below(v), samples) < k * |samples|
  }

  predicate LatencyIs(l: LatencyStats, samples: seq<Sample>) {
    && |l.buckets| == BUCKETS && (forall b :: 0 <= b < BUCKETS ==> l.buckets[b] == Sum(InBucket(b), samples))
    && if samples == [] then l.p50 == l.p95 == l.p99 == 0
       else IsPercentile(l.p50, samples, 50) && IsPercentile(l.p95, samples, 95) && IsPercentile(l.p99, samples, 99)
  }

  predicate StatusIs(counts: seq<int>, samples: seq<Sample>) {
    |counts| == CLASSES && forall c :: 0 <= c < CLASSES ==> counts[c] == Sum(InClass(c), samples)
  }

  function TokensIn(samples: seq<Sample>): TokenSplit {
    TokenSplit(Sum(PromptTokens, samples), Sum(CompletionTokens, samples),
               Sum(Streamed(true), samples), Sum(Streamed(false), samples),
               Sum(StreamedTokens(true), samples), Sum(StreamedTokens(false), samples))
  }

  function StatOf(samples: seq<Sample>, name: Text): ModelStat {
    ModelStat(name, Sum(RequestsOf(name), samples), Sum(TokensOf(name), samples), Sum(FailedOf(name), samples))
  }

  predicate Occurs(samples: seq<Sample>, name: Text) {
    exists s :: s in samples && Name(s) == name
  }

  /** Byte-wise order of names. */
  predicate Less(a: Text, b: Text) {
    b != [] && (a == [] || a[0] < b[0] || (a[0] == b[0] && Less(a[1..], b[1..])))
  }

  /** More requests first; between equals the smaller name. */
  predicate Before(a: ModelStat, b: ModelStat) {
    if a.requests != b.requests then a.requests > b.requests else Less(a.name, b.name)
  }

  /** Every model that occurs, each before all that follow. */
  predicate Ranking(all: seq<ModelStat>, samples: seq<Sample>) {
    && (forall i, j :: 0 <= i < j < |all| ==> Before(all[i], all[j]))
    && (forall m :: m in all ==> Occurs(samples, m.name) && m == StatOf(samples, m.name))
    && (forall s :: s in samples ==> StatOf(samples, Name(s)) in all)
  }

  function Top(all: seq<ModelStat>): seq<ModelStat> {
    if |all| > TOP_MODELS then all[..TOP_MODELS] else all
  }

  ghost predicate TopModelsAre(top: seq<ModelStat>, samples: seq<Sample>) {
    exists all :: Ranking(all, samples) && top == Top(all)
  }

  /** math.Round of a number that is not negative. */
  function Round(x: real): int {
    (x + 0.5).Floor
  }

  /** The successful share in percent, rounded to a tenth. */
  function SuccessRate(success: int, n: nat): real
    requires n > 0
  {
    Round(success as real / n as real * 1000.0) as real / 10.0
  }

  predicate SummaryIs(m: Summary, samples: seq<Sample>) {
    && m.requests == |samples|
    && m.successRate == (if samples == [] then 0.0 else SuccessRate(Sum(Success, samples), |samples|))
    && m.failed == |samples| - Sum(Success, samples)
    && m.tokens == Sum(Tokens, samples)
    && m.avgLatencyMs == if samples == [] then 0 else Quotient(Sum(Latency, samples) + |samples| / 2, |samples|)
  }

  // ----- Windows -----

  const HOUR: int := 3_600_000_000_000

  datatype Window = Hours24 | Days7 | Days30 | Unsupported

  /** What the local time zone says: where an hour and an earlier day began, and how a time is written. */
  datatype Zone = Zone(hourOf: int -> int, midnight: (int, nat) -> int, clock: int -> string, date: int -> string)

  /** The stretch of time to be shown, cut into slots. */
  datatype Range = Range(start: int, end: int, interval: int, slots: nat, written: int -> string)

  function RangeOf(window: Window, now: int, zone: Zone): (r: Option<Range>)
    ensures r.Some? ==> r.value.interval > 0
  {
    match window
    case Hours24 => Some(Range(zone.hourOf(now) - 23 * HOUR, now, HOUR, 24, zone.clock))
    case Days7 => Some(Range(zone.midnight(now, 6), now, 24 * HOUR, 7, zone.date))
    case Days30 => Some(Range(zone.midnight(now, 29), now, 24 * HOUR, 30, zone.date))
    case Unsupported => None
  }

  function SlotStart(r: Range, i: int): int {
    r.start + i * r.interval
  }

  /** Where the slot ends: the last one may be cut short. */
  function SlotEnd(r: Range, i: int): int {
    if SlotStart(r, i + 1) < r.end then SlotStart(r, i + 1) else r.end
  }

  function PointOf(r: Range, i: int, samples: seq<Sample>): TrendPoint {
    TrendPoint(r.written(SlotStart(r, i)), Sum(InSpan(SlotStart(r, i), SlotEnd(r, i)), samples),
               Sum(TokensInSpan(SlotStart(r, i), SlotEnd(r, i)), samples))
  }

  /** Every slot counts the samples made within it. */
  predicate TrendIs(trend: seq<TrendPoint>, r: Range, samples: seq<Sample>) {
    |trend| == r.slots && forall i :: 0 <= i < r.slots ==> trend[i] == PointOf(r, i, samples)
  }

  /** What the dashboard of a list of samples is. */
  ghost predicate DashboardIs(d: Data, r: Range, samples: seq<Sample>, truncated: bool) {
    && SummaryIs(d.summary, samples) && LatencyIs(d.latency, samples) && StatusIs(d.status, samples)
    && TopModelsAre(d.topModels, samples) && d.tokens == TokensIn(samples) && d.truncated == truncated
    && d.alerts == [] && TrendIs(d.trend, r, samples)
  }

  // ----- Sorting, as the library does it -----

  function Insert<T>(x: T, s: seq<T>, le: (T, T) -> bool): seq<T> {
    if s == [] || le(x, s[0]) then [x] + s else [s[0]] + Insert(x, s[1..], le)
  }

  function Sort<T>(s: seq<T>, le: (T, T) -> bool): seq<T> {
    if s == [] then [] else Insert(s[|s| - 1], Sort(s[..|s| - 1], le), le)
  }

  predicate Sorted<T>(s: seq<T>, le: (T, T) -> bool) {
    forall i, j :: 0 <= i < j < |s| ==> le(s[i], s[j])
  }

  ghost predicate TotalOrder<T(!new)>(le: (T, T) -> bool) {
    (forall a, b :: le(a, b) || le(b, a)) && (forall a, b, c :: le(a, b) && le(b, c) ==> le(a, c))
  }

  lemma {:induction false} InsertContents<T(!new)>(x: T, s: seq<T>, le: (T, T) -> bool)
    ensures multiset(Insert(x, s, le)) == multiset(s)[x := multiset(s)[x] + 1]
    ensures |Insert(x, s, le)| == |s| + 1
  {
    if s == [] || le(x, s[0]) {
    } else {
      InsertContents(x, s[1..], le);
      assert s == [s[0]] + s[1..];
    }
  }

  lemma {:induction false} InsertSorted<T(!new)>(x: T, s: seq<T>, le: (T, T) -> bool)
    requires TotalOrder(le) && Sorted(s, le)
    ensures Sorted(Insert(x, s, le), le)
  {
    if s == [] || le(x, s[0]) {
    } else {
      InsertSorted(x, s[1..], le);
      InsertContents(x, s[1..], le);
      var r := Insert(x, s[1..], le);
      forall j | 0 <= j < |r| ensures le(s[0], r[j]) {
        assert r[j] in multiset(r);
        assert r[j] == x || r[j] in s[1..];
      }
    }
  }

  lemma {:induction false} SortSorts<T(!new)>(s: seq<T>, le: (T, T) -> bool)
    requires TotalOrder(le)
    ensures Sorted(Sort(s, le), le) && multiset(Sort(s, le)) == multiset(s) && |Sort(s, le)| == |s|
  {
    if s != [] {
      SortSorts(s[..|s| - 1], le);
      InsertSorted(s[|s| - 1], Sort(s[..|s| - 1], le), le);
      InsertContents(s[|s| - 1], Sort(s[..|s| - 1], le), le);
      assert s == s[..|s| - 1] + [s[|s| - 1]];
    }
  }

  // ----- Status and tokens -----

  method ComputeStatus(samples: seq<Sample>) returns (counts: seq<int>)
    ensures StatusIs(counts, samples)
  {
    hide StatusClass;
    counts := [0, 0, 0, 0, 0];
    for i := 0 to |samples|
      invariant StatusIs(counts, samples[..i])
    {
      var c := StatusClass(samples[i].status);
      forall d: nat | d < CLASSES ensures Sum(InClass(d), samples[..i + 1])
          == Sum(InClass(d), samples[..i]) + One(c == d) {
        SumSnoc(InClass(d), samples, i);
      }
      counts := counts[c := counts[c] + 1];
    }
    assert samples[..|samples|] == samples;
  }

  method ComputeTokens(samples: seq<Sample>) returns (t: TokenSplit)
    ensures t == TokensIn(samples)
  {
    t := TokenSplit(0, 0, 0, 0, 0, 0);
    for i := 0 to |samples|
      invariant t == TokensIn(samples[..i])
    {
      var s := samples[i];
      assert samples[..i + 1][..i] == samples[..i];
      t := t.(promptTokens := t.promptTokens + s.promptTokens);
      t := t.(completionTokens := t.completionTokens + s.completionTokens);
      if s.isStream {
        t := t.(streamRequests := t.streamRequests + 1, streamTokens := t.streamTokens + s.totalTokens);
      } else {
        t := t.(nonStreamRequests := t.nonStreamRequests + 1, nonStreamTokens := t.nonStreamTokens + s.totalTokens);
      }
    }
    assert samples[..|samples|] == samples;
  }

  // ----- Latency -----

  method LatencyBucketIndex(ms: int) returns (index: int)
    ensures 0 <= index < BUCKETS && forall b: nat :: FallsIn(ms, b) <==> b == index
  {
    index := |BOUNDS|;
    for i := 0 to |BOUNDS|
      invariant index == |BOUNDS| && forall j :: 0 <= j < i ==> BOUNDS[j] <= ms
    {
      if ms < BOUNDS[i] {
        index := i;
        break;
      }
    }
    if index > 5 {
      index := 5;
    }
  }

  function Durations(samples: seq<Sample>): seq<int> {
    if samples == [] then [] else Durations(samples[..|samples| - 1]) + [samples[|samples| - 1].durationMs]
  }

  const ASCENDING := (a: int, b: int) => a <= b

  function CountAtMost(xs: seq<int>, v: int): nat {
    if xs == [] then 0 else One(xs[0] <= v) + CountAtMost(xs[1..], v)
  }

  lemma {:induction false} InsertCounts(x: int, xs: seq<int>, v: int)
    ensures CountAtMost(Insert(x, xs, ASCENDING), v) == One(x <= v) + CountAtMost(xs, v)
  {
    if xs == [] || x <= xs[0] {
      assert ([x] + xs)[1..] == xs;
    } else {
      InsertCounts(x, xs[1..], v);
      assert ([xs[0]] + Insert(x, xs[1..], ASCENDING))[1..] == Insert(x, xs[1..], ASCENDING);
    }
  }

  /** Sorting the durations keeps how many samples are at or below each value, and below it. */
  lemma {:induction false} SortedCounts(samples: seq<Sample>, v: int)
    ensures |Durations(samples)| == |samples|
    ensures CountAtMost(Sort(Durations(samples), ASCENDING), v) == Sum(AtMost(v), samples)
    ensures CountAtMost(Sort(Durations(samples), ASCENDING), v - 1) == Sum(Below(v), samples)
  {
    if samples != [] {
      var before, s := samples[..|samples| - 1], samples[|samples| - 1];
      SortedCounts(before, v);
      var ds := Durations(samples);
      assert ds[..|ds| - 1] == Durations(before);
      InsertCounts(s.durationMs, Sort(Durations(before), ASCENDING), v);
      InsertCounts(s.durationMs, Sort(Durations(before), ASCENDING), v - 1);
    }
  }

  lemma {:induction false} DurationOccurs(samples: seq<Sample>, d: int)
    requires d in Durations(samples)
    ensures exists s :: s in samples && s.durationMs == d
  {
    var last := samples[|samples| - 1];
    if last.durationMs == d {
      assert last in samples;
    } else {
      DurationOccurs(samples[..|samples| - 1], d);
    }
  }

  /** In a sorted sequence more than i values are at most the one at index i, and at most i are below it. */
  lemma {:induction false} CountsAt(xs: seq<int>, i: nat)
    requires i < |xs| && forall j, k :: 0 <= j <= k < |xs| ==> xs[j] <= xs[k]
    ensures CountAtMost(xs, xs[i]) > i && CountAtMost(xs, xs[i] - 1) <= i
  {
    if i == 0 {
      NoneBelow(xs, xs[0]);
    } else {
      CountsAt(xs[1..], i - 1);
    }
  }

  lemma {:induction false} NoneBelow(xs: seq<int>, v: int)
    requires forall i :: 0 <= i < |xs| ==> v <= xs[i]
    ensures CountAtMost(xs, v - 1) == 0
  {
    if xs != [] {
      NoneBelow(xs[1..], v);
    }
  }

  lemma AscendingIsTotal()
    ensures TotalOrder(ASCENDING)
  {
  }

  lemma RankIsPercentile(samples: seq<Sample>, rank: nat, k: nat, share: nat)
    requires 1 <= rank <= |samples| && share == k * |samples| && 100 * rank >= share > 100 * (rank - 1)
    ensures var sorted := Sort(Durations(samples), ASCENDING);
            |sorted| == |samples| && IsPercentile(sorted[rank - 1], samples, k)
  {
    hide Sort, Insert, Durations, Sum, CountAtMost, TotalOrder;
    var sorted := Sort(Durations(samples), ASCENDING);
    AscendingIsTotal();
    SortSorts(Durations(samples), ASCENDING);
    SortedCounts(samples, 0);
    var v := sorted[rank - 1];
    SortedCounts(samples, v);
    forall i, j | 0 <= i <= j < |sorted| ensures sorted[i] <= sorted[j] {
      assert i < j ==> ASCENDING(sorted[i], sorted[j]);
    }
    CountsAt(sorted, rank - 1);
    assert v in multiset(sorted);
    DurationOccurs(samples, v);
  }

  /** The nearest-rank percentile of sorted durations. */
  method Percentile(sorted: seq<int>, k: nat, ghost samples: seq<Sample>) returns (v: int)
    requires samples != [] && sorted == Sort(Durations(samples), ASCENDING) && 1 <= k <= 100
    ensures IsPercentile(v, samples, k)
  {
    hide Sort, IsPercentile;
    RankInRange(k, |samples|);
    RankIsPercentile(samples, (k * |samples| + 99) / 100, k, k * |samples|);
    v := sorted[(k * |sorted| + 99) / 100 - 1];
  }

  lemma RankInRange(k: nat, n: nat)
    requires 1 <= k <= 100 && n > 0
    ensures var rank := (k * n + 99) / 100;
            1 <= rank <= n && 100 * rank >= k * n && 100 * (rank - 1) < k * n
  {
    assert k * n <= 100 * n;
    assert k * n >= 1;
  }

  method ComputeLatency(samples: seq<Sample>) returns (l: LatencyStats)
    ensures LatencyIs(l, samples)
  {
    hide IsPercentile, Sort, FallsIn;
    l := LatencyStats(0, 0, 0, [0, 0, 0, 0, 0, 0]);
    if samples == [] {
      return;
    }
    var durations: seq<int> := [];
    for i := 0 to |samples|
      invariant durations == Durations(samples[..i])
      invariant l.p50 == l.p95 == l.p99 == 0 && |l.buckets| == BUCKETS
      invariant forall b :: 0 <= b < BUCKETS ==> l.buckets[b] == Sum(InBucket(b), samples[..i])
    {
      assert samples[..i + 1][..i] == samples[..i];
      durations := durations + [samples[i].durationMs];
      var index := LatencyBucketIndex(samples[i].durationMs);
      forall b: nat | b < BUCKETS ensures Sum(InBucket(b), samples[..i + 1])
          == Sum(InBucket(b), samples[..i]) + One(index == b) {
        SumSnoc(InBucket(b), samples, i);
      }
      l := l.(buckets := l.buckets[index := l.buckets[index] + 1]);
    }
    assert samples[..|samples|] == samples;
    durations := Sort(durations, ASCENDING);
    var p50 := Percentile(durations, 50, samples);
    var p95 := Percentile(durations, 95, samples);
    var p99 := Percentile(durations, 99, samples);
    l := l.(p50 := p50, p95 := p95, p99 := p99);
  }

  // ----- Models -----

  lemma {:induction false} LessOrders(a: Text, b: Text)
    ensures !(Less(a, b) && Less(b, a)) && (a != b ==> Less(a, b) || Less(b, a)) && !Less(a, a)
  {
    if a != [] && b != [] {
      LessOrders(a[1..], b[1..]);
      assert a == [a[0]] + a[1..] && b == [b[0]] + b[1..];
    } else if a != [] {
      LessOrders(a[1..], []);
    }
    if a != [] {
      LessIrreflexive(a);
    }
  }

  lemma {:induction false} LessIrreflexive(a: Text)
    ensures !Less(a, a)
  {
    if a != [] {
      LessIrreflexive(a[1..]);
    }
  }

  lemma {:induction false} LessTransitive(a: Text, b: Text, c: Text)
    requires Less(a, b) && Less(b, c)
    ensures Less(a, c)
  {
    if a != [] && a[0] == b[0] == c[0] {
      LessTransitive(a[1..], b[1..], c[1..]);
    }
  }

  /** Not ranked after: what the library's sort compares by. */
  const RANKED := (a: ModelStat, b: ModelStat) => !Before(b, a)

  lemma RankedIsTotal()
    ensures TotalOrder(RANKED)
  {
    forall a: ModelStat, b: ModelStat ensures RANKED(a, b) || RANKED(b, a) {
      LessOrders(a.name, b.name);
    }
    forall a: ModelStat, b: ModelStat, c: ModelStat | RANKED(a, b) && RANKED(b, c) ensures RANKED(a, c) {
      NotLessTransitive(a.name, b.name, c.name);
    }
  }

  lemma NotLessTransitive(a: Text, b: Text, c: Text)
    ensures !Less(b, a) && !Less(c, b) ==> !Less(c, a)
  {
    LessOrders(a, b);
    LessOrders(b, c);
    if Less(a, b) && Less(b, c) {
      LessTransitive(a, b, c);
      LessOrders(a, c);
    }
  }

  /** The statistics gathered so far: one for each model that occurs. */
  predicate Gathered(stats: map<Text, ModelStat>, samples: seq<Sample>) {
    && (forall name :: name in stats ==> Occurs(samples, name) && stats[name] == StatOf(samples, name))
    && (forall s :: s in samples ==> Name(s) in stats)
  }

  lemma OccursNext(samples: seq<Sample>, s: Sample, name: Text)
    ensures Occurs(samples + [s], name) <==> Occurs(samples, name) || Name(s) == name
  {
    var all := samples + [s];
    assert s in all;
    if Occurs(samples, name) {
      var t :| t in samples && Name(t) == name;
      assert t in all;
    }
  }

  function Counted(m: ModelStat, s: Sample): ModelStat {
    ModelStat(m.name, m.requests + 1, m.tokens + s.totalTokens, m.failed + One(!IsSuccess(s.status)))
  }

  /** One more sample changes its own model's statistics only. */
  lemma StatNext(samples: seq<Sample>, s: Sample, name: Text)
    ensures StatOf(samples + [s], name) ==
            (if Name(s) != name then StatOf(samples, name)
             else Counted(StatOf(samples, name), s))
  {
    hide Name;
    assert (samples + [s])[..|samples|] == samples;
  }

  lemma GatheredNext(stats: map<Text, ModelStat>, samples: seq<Sample>, s: Sample)
    requires Gathered(stats, samples)
    ensures var m := if Name(s) in stats then stats[Name(s)] else ModelStat(Name(s), 0, 0, 0);
            Gathered(stats[Name(s) := Counted(m, s)], samples + [s])
  {
    hide Occurs, Name;
    var m := if Name(s) in stats then stats[Name(s)] else ModelStat(Name(s), 0, 0, 0);
    var after := stats[Name(s) := Counted(m, s)];
    if Name(s) !in stats {
      Unseen(stats, samples, Name(s));
      NothingOf(samples, Name(s));
    }
    forall name | name in after ensures Occurs(samples + [s], name) && after[name] == StatOf(samples + [s], name) {
      hide StatOf;
      OccursNext(samples, s, name);
      StatNext(samples, s, name);
      GatheredNames(stats, samples);
    }
  }

  lemma Unseen(stats: map<Text, ModelStat>, samples: seq<Sample>, name: Text)
    requires Gathered(stats, samples) && name !in stats
    ensures !Occurs(samples, name)
  {
  }

  lemma {:induction false} NothingOf(samples: seq<Sample>, name: Text)
    requires !Occurs(samples, name)
    ensures StatOf(samples, name) == ModelStat(name, 0, 0, 0)
  {
    if samples != [] {
      var before, s := samples[..|samples| - 1], samples[|samples| - 1];
      assert s in samples && forall t :: t in before ==> t in samples;
      NothingOf(before, name);
    }
  }

  method GatherModels(samples: seq<Sample>) returns (stats: map<Text, ModelStat>)
    ensures Gathered(stats, samples)
  {
    hide Gathered;
    stats := map[];
    NoneGathered();
    for i := 0 to |samples|
      invariant Gathered(stats, samples[..i])
    {
      var s := samples[i];
      ghost var before := stats;
      GatheredNext(stats, samples[..i], s);
      assert samples[..i + 1] == samples[..i] + [s];
      var name := s.model;
      if name == [] {
        name := UNNAMED;
      }
      if name !in stats {
        stats := stats[name := ModelStat(name, 0, 0, 0)];
      }
      stats := stats[name := stats[name].(requests := stats[name].requests + 1)];
      stats := stats[name := stats[name].(tokens := stats[name].tokens + s.totalTokens)];
      if !IsSuccess(s.status) {
        stats := stats[name := stats[name].(failed := stats[name].failed + 1)];
      }
      assert stats == before[Name(s) := stats[name]];
    }
    assert samples[..|samples|] == samples;
  }

  lemma NoneGathered()
    ensures Gathered(map[], [])
  {
  }

  predicate Distinct<T(==)>(s: seq<T>) {
    forall i, j :: 0 <= i < j < |s| ==> s[i] != s[j]
  }

  /** The map's values in some order. */
  method ListModels(stats: map<Text, ModelStat>) returns (list: seq<ModelStat>)
    requires forall name :: name in stats ==> stats[name].name == name
    ensures Distinct(list) && forall m :: m in list <==> m.name in stats && stats[m.name] == m
  {
    list := [];
    var names := stats.Keys;
    while names != {}
      invariant names <= stats.Keys && Distinct(list)
      invariant forall m :: m in list <==> m.name in stats && m.name !in names && stats[m.name] == m
    {
      var name :| name in names;
      list := list + [stats[name]];
      names := names - {name};
    }
  }

  lemma {:induction false} DistinctCounts<T>(s: seq<T>, x: T)
    requires Distinct(s)
    ensures multiset(s)[x] <= 1
  {
    if s != [] {
      DistinctCounts(s[1..], x);
      assert s == [s[0]] + s[1..];
      assert s[0] !in s[1..];
    }
  }

  lemma RankedIsStrict(a: ModelStat, b: ModelStat)
    requires RANKED(a, b) && a.name != b.name
    ensures Before(a, b)
  {
    LessOrders(a.name, b.name);
  }

  /** Sorting the gathered statistics ranks all models. */
  lemma SortedIsRanking(list: seq<ModelStat>, stats: map<Text, ModelStat>, samples: seq<Sample>)
    requires Gathered(stats, samples) && Distinct(list) && forall name :: name in stats ==> stats[name].name == name
    requires forall m :: m in list <==> m.name in stats && stats[m.name] == m
    ensures Ranking(Sort(list, RANKED), samples)
  {
    hide Sort, Before, StatOf, Occurs;
    var all := Sort(list, RANKED);
    RankedIsTotal();
    SortSorts(list, RANKED);
    assert forall m :: m in all <==> m in multiset(all);
    assert forall m :: m in list <==> m in multiset(list);
    forall i, j | 0 <= i < j < |all| ensures Before(all[i], all[j]) {
      if all[i] == all[j] {
        TwiceIn(all, i, j);
        DistinctCounts(list, all[i]);
      }
      RankedIsStrict(all[i], all[j]);
    }
  }

  lemma TwiceIn<T>(s: seq<T>, i: nat, j: nat)
    requires i < j < |s| && s[i] == s[j]
    ensures multiset(s)[s[i]] > 1
  {
    assert s == s[..j] + s[j..];
    assert s[i] in s[..j] && s[j] in s[j..];
  }

  method ComputeTopModels(samples: seq<Sample>) returns (top: seq<ModelStat>)
    ensures TopModelsAre(top, samples)
  {
    hide Gathered, Ranking, Sort;
    var stats := GatherModels(samples);
    GatheredNames(stats, samples);
    var out := ListModels(stats);
    SortedIsRanking(out, stats, samples);
    out := Sort(out, RANKED);
    top := out;
    if |top| > 8 {
      top := top[..8];
    }
    assert top == Top(out);
  }

  lemma GatheredNames(stats: map<Text, ModelStat>, samples: seq<Sample>)
    requires Gathered(stats, samples)
    ensures forall name :: name in stats ==> stats[name].name == name
  {
  }

  // ----- The whole dashboard -----

  method ComputeSummary(samples: seq<Sample>) returns (m: Summary)
    ensures SummaryIs(m, samples)
  {
    hide SuccessRate;
    m := Summary(0, 0.0, 0, 0, 0);
    if samples == [] {
      return;
    }
    var requests, success, sumTokens, sumLatency := 0, 0, 0, 0;
    for i := 0 to |samples|
      invariant requests == i && success == Sum(Success, samples[..i])
      invariant sumTokens == Sum(Tokens, samples[..i]) && sumLatency == Sum(Latency, samples[..i])
    {
      var s := samples[i];
      assert samples[..i + 1][..i] == samples[..i];
      requests := requests + 1;
      if IsSuccess(s.status) {
        success := success + 1;
      }
      sumTokens := sumTokens + s.totalTokens;
      sumLatency := sumLatency + s.durationMs;
    }
    assert samples[..|samples|] == samples;
    var n := |samples|;
    m := Summary(requests, SuccessRate(success, n), n - success, sumTokens, Quotient(sumLatency + n / 2, n));
  }

  /** The slot that the division gives is the one the time falls in. */
  lemma {:induction false} SlotOf(r: Range, t: int, i: int)
    requires r.interval > 0 && r.start <= t
    ensures (t - r.start) / r.interval == i <==> SlotStart(r, i) <= t < SlotStart(r, i + 1)
  {
    var q := (t - r.start) / r.interval;
    assert SlotStart(r, q) <= t < SlotStart(r, q + 1);
    if i < q {
      SlotsAscend(r, i + 1, q);
    } else if i > q {
      SlotsAscend(r, q + 1, i);
    }
  }

  lemma SlotsAscend(r: Range, i: int, j: int)
    requires r.interval > 0 && i <= j
    ensures SlotStart(r, i) <= SlotStart(r, j)
  {
    assert (j - i) * r.interval >= 0;
  }

  function Added(p: TrendPoint, s: Sample, here: bool): TrendPoint {
    if here then p.(requests := p.requests + 1, tokens := p.tokens + s.totalTokens) else p
  }

  /** One sample more: it adds to the slot of the division, if it is within the range and one of the slots. */
  lemma {:induction false} PointNext(r: Range, samples: seq<Sample>, s: Sample, i: int)
    requires r.interval > 0 && i >= 0
    ensures PointOf(r, i, samples + [s]) ==
            Added(PointOf(r, i, samples), s,
                  r.start <= s.createdAt < r.end && (s.createdAt - r.start) / r.interval == i)
  {
    hide SlotStart;
    var all, from, to := samples + [s], SlotStart(r, i), SlotEnd(r, i);
    assert all[..|samples|] == samples;
    if r.start <= s.createdAt {
      SlotOf(r, s.createdAt, i);
    } else {
      SlotsAscend(r, 0, i);
      assert SlotStart(r, 0) == r.start by { FirstSlot(r); }
    }
  }

  lemma FirstSlot(r: Range)
    ensures SlotStart(r, 0) == r.start
  {
  }

  method ComputeTrend(samples: seq<Sample>, r: Range) returns (trend: seq<TrendPoint>)
    requires r.interval > 0
    ensures TrendIs(trend, r, samples)
  {
    hide SlotStart, PointOf;
    trend := seq(r.slots, i requires 0 <= i < r.slots => TrendPoint(r.written(SlotStart(r, i)), 0, 0));
    forall i | 0 <= i < r.slots ensures trend[i] == PointOf(r, i, samples[..0]) {
      NoPoint(r, i);
    }
    for k := 0 to |samples|
      invariant TrendIs(trend, r, samples[..k])
    {
      var s := samples[k];
      assert samples[..k + 1] == samples[..k] + [s];
      forall i | 0 <= i < r.slots
        ensures PointOf(r, i, samples[..k + 1]) ==
                Added(trend[i], s, r.start <= s.createdAt < r.end && (s.createdAt - r.start) / r.interval == i)
      {
        PointNext(r, samples[..k], s, i);
      }
      if s.createdAt < r.start || s.createdAt >= r.end {
        continue;
      }
      var idx := (s.createdAt - r.start) / r.interval;
      if 0 <= idx < r.slots {
        trend := trend[idx := trend[idx].(requests := trend[idx].requests + 1,
                                          tokens := trend[idx].tokens + s.totalTokens)];
      }
    }
    assert samples[..|samples|] == samples;
  }

  lemma NoPoint(r: Range, i: int)
    ensures PointOf(r, i, []) == TrendPoint(r.written(SlotStart(r, i)), 0, 0)
  {
  }

  /** None for a window that is not supported. */
  method ComputeDashboard(samples: seq<Sample>, window: Window, now: int, zone: Zone, truncated: bool)
    returns (d: Option<Data>)
    ensures d.Some? <==> window != Unsupported
    ensures d.Some? ==> DashboardIs(d.value, RangeOf(window, now, zone).value, samples, truncated)
  {
    hide SummaryIs, LatencyIs, StatusIs, TopModelsAre, TrendIs;
    var range := RangeOf(window, now, zone);
    if range.None? {
      return None;
    }
    var latency := ComputeLatency(samples);
    var status := ComputeStatus(samples);
    var topModels := ComputeTopModels(samples);
    var tokens := ComputeTokens(samples);
    var summary := ComputeSummary(samples);
    var trend := ComputeTrend(samples, range.value);
    d := Some(Data(summary, latency, status, topModels, tokens, truncated, [], trend));
  }
}
