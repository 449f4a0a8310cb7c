/** What every dashboard satisfies, whatever the order of its samples. */
module DashboardFacts {
  import opened Common
  import opened Dashboard

  // ----- The order of the samples does not matter -----

  lemma {:induction false} SumConcat(m: Metric, a: seq<Sample>, b: seq<Sample>)
    ensures Sum(m, a + b) == Sum(m, a) + Sum(m, b)
  {
    hide Weight;
    if b == [] {
      assert a + b == a;
    } else {
      assert (a + b)[..|a + b| - 1] == a + b[..|b| - 1];
      SumConcat(m, a, b[..|b| - 1]);
    }
  }

  /** Taking one sample out. */
  lemma Without(m: Metric, b: seq<Sample>, j: nat)
    requires j < |b|
    ensures var rest := b[..j] + b[j + 1..];
            Sum(m, b) == Sum(m, rest) + Weight(m, b[j]) && multiset(rest) == multiset(b) - multiset{b[j]}
  {
    hide Weight;
    assert b == b[..j] + [b[j]] + b[j + 1..];
    assert [b[j]][..0] == [];
    assert Sum(m, [b[j]]) == Weight(m, b[j]);
    SumConcat(m, b[..j], [b[j]]);
    SumConcat(m, b[..j] + [b[j]], b[j + 1..]);
    SumConcat(m, b[..j], b[j + 1..]);
  }

  lemma {:induction false} SumPermuted(m: Metric, a: seq<Sample>, b: seq<Sample>)
    requires multiset(a) == multiset(b)
    ensures Sum(m, a) == Sum(m, b) && |a| == |b|
  {
    hide Weight, Sum;
    assert |multiset(a)| == |a| && |multiset(b)| == |b|;
    if a != [] {
      var x := a[|a| - 1];
      assert x in multiset(b);
      var j :| 0 <= j < |b| && b[j] == x;
      Without(m, a, |a| - 1);
      Without(m, b, j);
      SumPermuted(m, a[..|a| - 1] + a[|a|..], b[..j] + b[j + 1..]);
    }
  }

  lemma SameElements(a: seq<Sample>, b: seq<Sample>)
    requires multiset(a) == multiset(b)
    ensures |a| == |b| && forall s :: s in a <==> s in b
  {
    SumPermuted(Success, a, b);
    forall s ensures s in a <==> s in b {
      assert s in a <==> s in multiset(a);
    }
  }

  // ----- Percentiles -----

  /** A count of samples up to a smaller value is a count below a larger one. */
  lemma {:induction false} AtMostIsBelow(v: int, w: int, samples: seq<Sample>)
    requires v < w
    ensures Sum(AtMost(v), samples) <= Sum(Below(w), samples)
  {
    if samples != [] {
      AtMostIsBelow(v, w, samples[..|samples| - 1]);
    }
  }

  lemma PercentilesAscend(v: int, w: int, samples: seq<Sample>, j: nat, k: nat)
    requires IsPercentile(v, samples, j) && IsPercentile(w, samples, k) && j <= k
    ensures v <= w
  {
    hide Sum;
    assert j * |samples| <= k * |samples|;
    if w < v {
      AtMostIsBelow(w, v, samples);
    }
  }

  /** There is one k-th percentile, whatever the order of the samples. */
  lemma PercentileUnique(v: int, w: int, a: seq<Sample>, b: seq<Sample>, k: nat)
    requires multiset(a) == multiset(b) && IsPercentile(v, a, k) && IsPercentile(w, b, k)
    ensures v == w
  {
    hide Sum;
    SameElements(a, b);
    SumPermuted(AtMost(w), b, a);
    SumPermuted(Below(w), b, a);
    PercentilesAscend(v, w, a, k, k);
    PercentilesAscend(w, v, a, k, k);
  }

  // ----- Rankings -----

  lemma BeforeIsStrict(a: ModelStat, b: ModelStat)
    ensures !(Before(a, b) && Before(b, a))
  {
    LessOrders(a.name, b.name);
  }

  predicate Strict(s: seq<ModelStat>) {
    forall i, j :: 0 <= i < j < |s| ==> Before(s[i], s[j])
  }

  lemma EmptyAlike(a: seq<ModelStat>, b: seq<ModelStat>)
    requires forall m :: m in a <==> m in b
    ensures a == [] <==> b == []
  {
    assert |a| > 0 ==> a[0] in a;
    assert |b| > 0 ==> b[0] in b;
  }

  lemma {:induction false} StrictUnique(a: seq<ModelStat>, b: seq<ModelStat>)
    requires Strict(a) && Strict(b) && forall m :: m in a <==> m in b
    ensures a == b
  {
    hide Before;
    EmptyAlike(a, b);
    if a != [] {
      assert a[0] in b && b[0] in a;
      var i :| 0 <= i < |a| && a[i] == b[0];
      var j :| 0 <= j < |b| && b[j] == a[0];
      BeforeIsStrict(a[0], b[0]);
      assert a[0] == b[0];
      forall m ensures m in a[1..] <==> m in b[1..] {
        TailOf(a, m);
        TailOf(b, m);
      }
      StrictUnique(a[1..], b[1..]);
      assert a == [a[0]] + a[1..] && b == [b[0]] + b[1..];
    }
  }

  lemma TailOf(a: seq<ModelStat>, m: ModelStat)
    requires a != [] && Strict(a)
    ensures m in a[1..] <==> m in a && m != a[0]
  {
    BeforeIsStrict(m, m);
  }

  lemma RankingUnique(x: seq<ModelStat>, y: seq<ModelStat>, a: seq<Sample>, b: seq<Sample>)
    requires multiset(a) == multiset(b) && Ranking(x, a) && Ranking(y, b)
    ensures x == y
  {
    hide Before;
    RankingWithin(x, y, a, b);
    RankingWithin(y, x, b, a);
    StrictUnique(x, y);
  }

  lemma RankingWithin(x: seq<ModelStat>, y: seq<ModelStat>, a: seq<Sample>, b: seq<Sample>)
    requires multiset(a) == multiset(b) && Ranking(x, a) && Ranking(y, b)
    ensures forall m :: m in x ==> m in y
  {
    hide Before, Sum, Name;
    SameElements(a, b);
    forall m | m in x ensures m in y {
      SumPermuted(RequestsOf(m.name), a, b);
      SumPermuted(TokensOf(m.name), a, b);
      SumPermuted(FailedOf(m.name), a, b);
      var s :| s in a && Name(s) == m.name;
      assert StatOf(b, Name(s)) in y;
    }
  }

  // ----- The dashboard is determined by its samples, in any order -----

  lemma LatencyUnique(x: LatencyStats, y: LatencyStats, a: seq<Sample>, b: seq<Sample>)
    requires multiset(a) == multiset(b) && LatencyIs(x, a) && LatencyIs(y, b)
    ensures x == y
  {
    hide Sum, IsPercentile;
    SameElements(a, b);
    forall i: nat | i < BUCKETS ensures x.buckets[i] == y.buckets[i] {
      SumPermuted(InBucket(i), a, b);
    }
    assert x.buckets == y.buckets;
    if a != [] {
      PercentileUnique(x.p50, y.p50, a, b, 50);
      PercentileUnique(x.p95, y.p95, a, b, 95);
      PercentileUnique(x.p99, y.p99, a, b, 99);
    }
  }

  lemma StatusUnique(x: seq<int>, y: seq<int>, a: seq<Sample>, b: seq<Sample>)
    requires multiset(a) == multiset(b) && StatusIs(x, a) && StatusIs(y, b)
    ensures x == y
  {
    hide Sum;
    forall i: nat | i < CLASSES ensures x[i] == y[i] {
      SumPermuted(InClass(i), a, b);
    }
  }

  lemma TokensUnique(a: seq<Sample>, b: seq<Sample>)
    requires multiset(a) == multiset(b)
    ensures TokensIn(a) == TokensIn(b)
  {
    hide Sum;
    SumPermuted(PromptTokens, a, b);
    SumPermuted(CompletionTokens, a, b);
    SumPermuted(Streamed(true), a, b);
    SumPermuted(Streamed(false), a, b);
    SumPermuted(StreamedTokens(true), a, b);
    SumPermuted(StreamedTokens(false), a, b);
  }

  lemma SummaryUnique(x: Summary, y: Summary, a: seq<Sample>, b: seq<Sample>)
    requires multiset(a) == multiset(b) && SummaryIs(x, a) && SummaryIs(y, b)
    ensures x == y
  {
    hide Sum;
    SameElements(a, b);
    SumPermuted(Success, a, b);
    SumPermuted(Tokens, a, b);
    SumPermuted(Latency, a, b);
  }

  lemma TrendUnique(x: seq<TrendPoint>, y: seq<TrendPoint>, r: Range, a: seq<Sample>, b: seq<Sample>)
    requires multiset(a) == multiset(b) && TrendIs(x, r, a) && TrendIs(y, r, b)
    ensures x == y
  {
    hide Sum;
    forall i | 0 <= i < r.slots ensures x[i] == y[i] {
      SumPermuted(InSpan(SlotStart(r, i), SlotEnd(r, i)), a, b);
      SumPermuted(TokensInSpan(SlotStart(r, i), SlotEnd(r, i)), a, b);
    }
  }

  /** The same samples in another order give the same dashboard. */
  lemma OrderIrrelevant(x: Data, y: Data, r: Range, a: seq<Sample>, b: seq<Sample>, truncated: bool)
    requires multiset(a) == multiset(b) && DashboardIs(x, r, a, truncated) && DashboardIs(y, r, b, truncated)
    ensures x == y
  {
    hide SummaryIs, LatencyIs, StatusIs, TrendIs, Ranking, Top;
    SummaryUnique(x.summary, y.summary, a, b);
    LatencyUnique(x.latency, y.latency, a, b);
    StatusUnique(x.status, y.status, a, b);
    TokensUnique(a, b);
    TrendUnique(x.trend, y.trend, r, a, b);
    var p :| Ranking(p, a) && x.topModels == Top(p);
    var q :| Ranking(q, b) && y.topModels == Top(q);
    RankingUnique(p, q, a, b);
  }

  // ----- The parts add up -----

  lemma {:induction false} ClassesAddUp(samples: seq<Sample>)
    ensures Sum(InClass(0), samples) + Sum(InClass(1), samples) + Sum(InClass(2), samples) + Sum(InClass(3), samples)
            + Sum(InClass(4), samples) == |samples|
    ensures Sum(InClass(0), samples) + Sum(InClass(1), samples) == Sum(Success, samples)
  {
    if samples != [] {
      ClassesAddUp(samples[..|samples| - 1]);
      ClassOfSuccess(samples[|samples| - 1].status);
    }
  }

  lemma ClassOfSuccess(status: int)
    ensures IsSuccess(status) <==> StatusClass(status) < 2
  {
  }

  lemma {:induction false} BucketsAddUp(samples: seq<Sample>)
    ensures Sum(InBucket(0), samples) + Sum(InBucket(1), samples) + Sum(InBucket(2), samples) + Sum(InBucket(3), samples)
            + Sum(InBucket(4), samples) + Sum(InBucket(5), samples) == |samples|
  {
    if samples != [] {
      BucketsAddUp(samples[..|samples| - 1]);
    }
  }

  lemma {:induction false} StreamsAddUp(samples: seq<Sample>)
    ensures Sum(Streamed(true), samples) + Sum(Streamed(false), samples) == |samples|
    ensures Sum(StreamedTokens(true), samples) + Sum(StreamedTokens(false), samples) == Sum(Tokens, samples)
  {
    if samples != [] {
      StreamsAddUp(samples[..|samples| - 1]);
    }
  }

  /**
    * The percentiles ascend; the status classes, the latency buckets and the streamed and other requests each
    * add up to all requests, and the tokens to all tokens; what failed is the 4xx, 5xx and other classes.
    */
  lemma PanelsAddUp(d: Data, r: Range, samples: seq<Sample>, truncated: bool)
    requires DashboardIs(d, r, samples, truncated)
    ensures d.latency.p50 <= d.latency.p95 <= d.latency.p99
    ensures d.status[0] + d.status[1] + d.status[2] + d.status[3] + d.status[4] == d.summary.requests
    ensures d.summary.failed == d.status[2] + d.status[3] + d.status[4]
    ensures var b := d.latency.buckets; b[0] + b[1] + b[2] + b[3] + b[4] + b[5] == d.summary.requests
    ensures d.tokens.streamRequests + d.tokens.nonStreamRequests == d.summary.requests
    ensures d.tokens.streamTokens + d.tokens.nonStreamTokens == d.summary.tokens
  {
    hide Sum, IsPercentile, TopModelsAre, TrendIs;
    ClassesAddUp(samples);
    BucketsAddUp(samples);
    StreamsAddUp(samples);
    if samples != [] {
      PercentilesAscend(d.latency.p50, d.latency.p95, samples, 50, 95);
      PercentilesAscend(d.latency.p95, d.latency.p99, samples, 95, 99);
    }
  }

  // ----- The trend -----

  function TrendRequests(trend: seq<TrendPoint>): int {
    if trend == [] then 0 else TrendRequests(trend[..|trend| - 1]) + trend[|trend| - 1].requests
  }

  function TrendTokens(trend: seq<TrendPoint>): int {
    if trend == [] then 0 else TrendTokens(trend[..|trend| - 1]) + trend[|trend| - 1].tokens
  }

  lemma {:induction false} SpansJoin(samples: seq<Sample>, a: int, b: int, c: int)
    requires a <= b <= c
    ensures Sum(InSpan(a, b), samples) + Sum(InSpan(b, c), samples) == Sum(InSpan(a, c), samples)
    ensures Sum(TokensInSpan(a, b), samples) + Sum(TokensInSpan(b, c), samples) == Sum(TokensInSpan(a, c), samples)
  {
    if samples != [] {
      SpansJoin(samples[..|samples| - 1], a, b, c);
    }
  }

  lemma {:induction false} EmptySpan(samples: seq<Sample>, a: int, b: int)
    requires b <= a
    ensures Sum(InSpan(a, b), samples) == Sum(TokensInSpan(a, b), samples) == 0
  {
    if samples != [] {
      EmptySpan(samples[..|samples| - 1], a, b);
    }
  }

  function Earlier(a: int, b: int): int {
    if a < b then a else b
  }

  /** The first n slots together show what was made in their time, up to the end of the range. */
  lemma {:induction false} SlotsAddUp(trend: seq<TrendPoint>, r: Range, samples: seq<Sample>, n: nat)
    requires TrendIs(trend, r, samples) && n <= r.slots && r.interval > 0
    ensures TrendRequests(trend[..n]) == Sum(InSpan(r.start, Earlier(SlotStart(r, n), r.end)), samples)
    ensures TrendTokens(trend[..n]) == Sum(TokensInSpan(r.start, Earlier(SlotStart(r, n), r.end)), samples)
  {
    hide Sum, SlotStart;
    if n == 0 {
      FirstSlot(r);
      EmptySpan(samples, r.start, Earlier(SlotStart(r, 0), r.end));
    } else {
      var from, to := SlotStart(r, n - 1), SlotStart(r, n);
      SlotsAddUp(trend, r, samples, n - 1);
      assert trend[..n][..n - 1] == trend[..n - 1];
      FirstSlot(r);
      SlotsAscend(r, 0, n - 1);
      SlotsAscend(r, n - 1, n);
      if from <= r.end {
        SpansJoin(samples, r.start, from, SlotEnd(r, n - 1));
      } else {
        EmptySpan(samples, from, SlotEnd(r, n - 1));
      }
    }
  }

  lemma {:induction false} AllInSpan(samples: seq<Sample>, a: int, b: int)
    ensures Sum(InSpan(a, b), samples) <= |samples|
    ensures Sum(InSpan(a, b), samples) == |samples| <==> forall s :: s in samples ==> a <= s.createdAt < b
    ensures (forall s :: s in samples ==> a <= s.createdAt < b) ==> Sum(TokensInSpan(a, b), samples) == Sum(Tokens, samples)
  {
    if samples != [] {
      var n := |samples| - 1;
      AllInSpan(samples[..n], a, b);
      assert samples == samples[..n] + [samples[n]];
    }
  }

  /** The time is before the end of the last slot. */
  predicate HasSlot(r: Range, t: int) {
    t < SlotStart(r, r.slots)
  }

  /**
    * Of the samples of the range, the trend shows all exactly when none was made after its last slot; it then
    * shows all their tokens.
    */
  lemma TrendShowsAllIff(d: Data, r: Range, samples: seq<Sample>, truncated: bool)
    requires DashboardIs(d, r, samples, truncated) && r.interval > 0
    requires forall s :: s in samples ==> r.start <= s.createdAt < r.end
    ensures TrendRequests(d.trend) == d.summary.requests <==>
            forall s :: s in samples ==> HasSlot(r, s.createdAt)
    ensures TrendRequests(d.trend) == d.summary.requests ==> TrendTokens(d.trend) == d.summary.tokens
  {
    hide Sum, SlotStart, LatencyIs, StatusIs, TopModelsAre;
    SlotsAddUp(d.trend, r, samples, r.slots);
    assert d.trend[..r.slots] == d.trend;
    AllInSpan(samples, r.start, Earlier(SlotStart(r, r.slots), r.end));
  }

  /** That is so for the last 24 hours when the current hour, the last slot, began less than an hour ago. */
  lemma HoursShowAll(now: int, zone: Zone, t: int)
    requires now < zone.hourOf(now) + HOUR && t < now
    ensures HasSlot(RangeOf(Hours24, now, zone).value, t)
  {
  }

  /** For a window of days, when the first midnight is no more than that many times 24 hours ago. */
  lemma DaysShowAllIff(window: Window, now: int, zone: Zone)
    requires window == Days7 || window == Days30
    ensures var r := RangeOf(window, now, zone).value;
            (forall t :: r.start <= t < r.end ==> HasSlot(r, t)) <==>
            now <= zone.midnight(now, r.slots - 1) + r.slots * 24 * HOUR
  {
    var r := RangeOf(window, now, zone).value;
    if now > SlotStart(r, r.slots) {
      assert r.start <= now - 1 < r.end && !HasSlot(r, now - 1);
    }
  }

  // ----- The models left out -----

  /** A model that is not shown ranks after every one that is, and only because there are eight of them. */
  lemma LeftOutRanksAfter(top: seq<ModelStat>, samples: seq<Sample>, s: Sample)
    requires TopModelsAre(top, samples) && s in samples && StatOf(samples, Name(s)) !in top
    ensures |top| == TOP_MODELS && forall m :: m in top ==> Before(m, StatOf(samples, Name(s)))
  {
    hide Before, StatOf, Name;
    var all :| Ranking(all, samples) && top == Top(all);
    var left := StatOf(samples, Name(s));
    assert left in all;
    var i :| 0 <= i < |all| && all[i] == left;
    assert forall j :: 0 <= j < |top| ==> top[j] in top && top[j] == all[j];
    forall m | m in top ensures Before(m, left) {
      var j :| 0 <= j < |top| && top[j] == m;
      assert all[j] == m;
    }
  }

  /** The requests of a list of models. */
  function Requests(all: seq<ModelStat>): int {
    if all == [] then 0 else all[0].requests + Requests(all[1..])
  }

  function RequestsFor(names: seq<Text>, samples: seq<Sample>): int {
    if names == [] then 0 else Sum(RequestsOf(names[0]), samples) + RequestsFor(names[1..], samples)
  }

  lemma {:induction false} RequestsForNext(names: seq<Text>, samples: seq<Sample>)
    requires samples != [] && Distinct(names)
    ensures var s := samples[|samples| - 1];
            RequestsFor(names, samples) == RequestsFor(names, samples[..|samples| - 1]) + One(Name(s) in names)
  {
    hide Name;
    if names != [] {
      RequestsForNext(names[1..], samples);
      assert names[0] !in names[1..];
    }
  }

  lemma {:induction false} NoRequests(names: seq<Text>)
    ensures RequestsFor(names, []) == 0
  {
    if names != [] {
      NoRequests(names[1..]);
    }
  }

  lemma {:induction false} RequestsForAll(names: seq<Text>, samples: seq<Sample>)
    requires Distinct(names) && forall s :: s in samples ==> Name(s) in names
    ensures RequestsFor(names, samples) == |samples|
  {
    hide RequestsFor;
    if samples == [] {
      NoRequests(names);
    } else {
      RequestsForAll(names, samples[..|samples| - 1]);
      RequestsForNext(names, samples);
    }
  }

  function NamesOf(all: seq<ModelStat>): seq<Text> {
    seq(|all|, i requires 0 <= i < |all| => all[i].name)
  }

  lemma {:induction false} RequestsByName(all: seq<ModelStat>, samples: seq<Sample>)
    requires forall m :: m in all ==> m == StatOf(samples, m.name)
    ensures Requests(all) == RequestsFor(NamesOf(all), samples)
  {
    if all != [] {
      RequestsByName(all[1..], samples);
      assert NamesOf(all)[1..] == NamesOf(all[1..]);
      assert all[0] in all;
    }
  }

  /** The ranked models' requests add up to all requests: each sample is counted under exactly one of them. */
  lemma ModelsAddUp(all: seq<ModelStat>, samples: seq<Sample>)
    requires Ranking(all, samples)
    ensures Requests(all) == |samples|
  {
    hide Before, Name;
    var names := NamesOf(all);
    forall i, j | 0 <= i < j < |names| ensures names[i] != names[j] {
      assert Before(all[i], all[j]) && all[i] in all && all[j] in all;
      BeforeIsStrict(all[i], all[j]);
    }
    forall s | s in samples ensures Name(s) in names {
      var i :| 0 <= i < |all| && all[i] == StatOf(samples, Name(s));
      assert names[i] == Name(s);
    }
    RequestsByName(all, samples);
    RequestsForAll(names, samples);
  }

  // ----- The average -----

  lemma {:induction false} LatencyNotNegative(samples: seq<Sample>)
    requires forall s :: s in samples ==> s.durationMs >= 0
    ensures Sum(Latency, samples) >= 0
  {
    if samples != [] {
      LatencyNotNegative(samples[..|samples| - 1]);
      assert samples[|samples| - 1] in samples;
    }
  }

  /** For durations that are not negative the average is rounded to the nearest millisecond, halves up. */
  lemma AverageRounds(m: Summary, samples: seq<Sample>)
    requires SummaryIs(m, samples) && samples != [] && forall s :: s in samples ==> s.durationMs >= 0
    ensures var n, sum := |samples|, Sum(Latency, samples);
            2 * sum - n < 2 * n * m.avgLatencyMs <= 2 * sum + n
  {
    hide Sum;
    LatencyNotNegative(samples);
    var n, sum := |samples|, Sum(Latency, samples);
    QuotientBounds(sum + n / 2, n);
  }

  lemma QuotientBounds(a: nat, n: nat)
    requires n > 0
    ensures n * Quotient(a, n) <= a < n * Quotient(a, n) + n
  {
  }

  // ----- The success rate -----

  lemma {:induction false} SuccessWithin(samples: seq<Sample>)
    ensures 0 <= Sum(Success, samples) <= |samples|
  {
    if samples != [] {
      SuccessWithin(samples[..|samples| - 1]);
    }
  }

  /** The success rate is within half a tenth of the successful share in percent, from 0 to 100, and 100 only near it. */
  lemma SuccessRateRounds(m: Summary, samples: seq<Sample>)
    requires SummaryIs(m, samples) && samples != []
    ensures var share := Sum(Success, samples) as real / |samples| as real * 100.0;
            share - 0.05 < m.successRate <= share + 0.05 && 0.0 <= m.successRate <= 100.0
    ensures m.failed == 0 ==> m.successRate == 100.0
  {
    hide Sum, Quotient;
    SuccessWithin(samples);
    var success, n := Sum(Success, samples), |samples|;
    ShareWithin(success, n);
  }

  lemma ShareWithin(success: nat, n: nat)
    requires success <= n && n > 0
    ensures 0.0 <= success as real / n as real <= 1.0 && (success == n ==> success as real / n as real == 1.0)
  {
    var x, d := success as real, n as real;
    var q := x / d;
    assert q * d == x;
    ProductSigns(q, d);
  }

  lemma ProductSigns(q: real, d: real)
    requires d > 0.0
    ensures (q < 0.0 ==> q * d < 0.0) && (q > 1.0 ==> q * d > d)
  {
  }
}
