/** The dashboard's panels in plain figures: what each number counts, without reference to how it is counted. */
module DashboardFigures {
  import opened Common
  import opened Dashboard
  import opened DashboardFacts

  // ----- The classes and buckets in figures -----

  /** The samples with a status from `from` up to `to`, not included. */
  function WithStatus(samples: seq<Sample>, from: int, to: int): nat {
    if samples == [] then 0
    else
      var s := samples[|samples| - 1];
      WithStatus(samples[..|samples| - 1], from, to) + (if from <= s.status < to then 1 else 0)
  }

  /** The samples that took at least `from` milliseconds and less than `to`. */
  function Lasting(samples: seq<Sample>, from: int, to: int): nat {
    if samples == [] then 0
    else
      var s := samples[|samples| - 1];
      Lasting(samples[..|samples| - 1], from, to) + (if from <= s.durationMs < to then 1 else 0)
  }

  lemma {:induction false} ClassCounts(samples: seq<Sample>)
    ensures Sum(InClass(0), samples) == WithStatus(samples, 200, 300)
    ensures Sum(InClass(1), samples) == WithStatus(samples, 300, 400)
    ensures Sum(InClass(2), samples) == WithStatus(samples, 400, 500)
    ensures Sum(InClass(3), samples) == WithStatus(samples, 500, 600)
  {
    if samples != [] {
      ClassCounts(samples[..|samples| - 1]);
    }
  }

  lemma {:induction false} BucketCounts(samples: seq<Sample>)
    ensures Sum(InBucket(1), samples) == Lasting(samples, 100, 300)
    ensures Sum(InBucket(2), samples) == Lasting(samples, 300, 1000)
    ensures Sum(InBucket(3), samples) == Lasting(samples, 1000, 3000)
    ensures Sum(InBucket(4), samples) == Lasting(samples, 3000, 10000)
  {
    if samples != [] {
      BucketCounts(samples[..|samples| - 1]);
    }
  }

  lemma {:induction false} TailCounts(samples: seq<Sample>, top: int)
    requires forall s :: s in samples ==> s.durationMs < top
    ensures Sum(InBucket(5), samples) == Lasting(samples, 10000, top)
  {
    if samples != [] {
      var n := |samples| - 1;
      assert samples[n] in samples;
      TailCounts(samples[..n], top);
    }
  }

  /** The status classes are 2xx, 3xx, 4xx, 5xx and the rest; what failed is all but 2xx and 3xx. */
  lemma ClassesInFigures(d: Data, r: Range, samples: seq<Sample>, truncated: bool)
    requires DashboardIs(d, r, samples, truncated)
    ensures d.status[0] == WithStatus(samples, 200, 300) && d.status[1] == WithStatus(samples, 300, 400)
    ensures d.status[2] == WithStatus(samples, 400, 500) && d.status[3] == WithStatus(samples, 500, 600)
    ensures d.status[0] + d.status[1] + d.status[2] + d.status[3] + d.status[4] == |samples|
    ensures d.summary.failed == |samples| - WithStatus(samples, 200, 300) - WithStatus(samples, 300, 400)
  {
    hide Sum, IsPercentile, TopModelsAre, TrendIs, WithStatus, LatencyIs;
    ClassesAddUp(samples);
    ClassCounts(samples);
  }

  /** The latency buckets end at 100 and 300 milliseconds and at 1, 3 and 10 seconds. */
  lemma BucketsInFigures(d: Data, r: Range, samples: seq<Sample>, truncated: bool, top: int)
    requires DashboardIs(d, r, samples, truncated) && forall s :: s in samples ==> s.durationMs < top
    ensures var b := d.latency.buckets;
            && b[1] == Lasting(samples, 100, 300) && b[2] == Lasting(samples, 300, 1000)
            && b[3] == Lasting(samples, 1000, 3000) && b[4] == Lasting(samples, 3000, 10000)
            && b[5] == Lasting(samples, 10000, top)
            && b[0] == |samples| - b[1] - b[2] - b[3] - b[4] - b[5]
  {
    hide Sum, IsPercentile, TopModelsAre, TrendIs, Lasting, SummaryIs, StatusIs;
    BucketsAddUp(samples);
    BucketCounts(samples);
    TailCounts(samples, top);
  }

  // ----- Sums -----

  function Total(samples: seq<Sample>, amount: Sample -> int): int {
    if samples == [] then 0 else Total(samples[..|samples| - 1], amount) + amount(samples[|samples| - 1])
  }

  lemma {:induction false} SumIsTotal(samples: seq<Sample>, m: Metric, amount: Sample -> int)
    requires forall s: Sample :: Weight(m, s) == amount(s)
    ensures Sum(m, samples) == Total(samples, amount)
  {
    hide Weight;
    if samples != [] {
      SumIsTotal(samples[..|samples| - 1], m, amount);
    }
  }

  /** Tokens and durations are summed as they are; requests and tokens are split by streaming. */
  lemma SumsInFigures(d: Data, r: Range, samples: seq<Sample>, truncated: bool)
    requires DashboardIs(d, r, samples, truncated)
    ensures d.tokens.promptTokens == Total(samples, (s: Sample) => s.promptTokens)
    ensures d.tokens.completionTokens == Total(samples, (s: Sample) => s.completionTokens)
    ensures d.summary.tokens == Total(samples, (s: Sample) => s.totalTokens)
    ensures d.tokens.streamRequests == Total(samples, (s: Sample) => if s.isStream then 1 else 0)
    ensures d.tokens.streamTokens == Total(samples, (s: Sample) => if s.isStream then s.totalTokens else 0)
    ensures samples != [] ==>
              d.summary.avgLatencyMs
              == Quotient(Total(samples, (s: Sample) => s.durationMs) + |samples| / 2, |samples|)
  {
    hide Sum, Total, LatencyIs, StatusIs, TopModelsAre, TrendIs, SuccessRate;
    SumIsTotal(samples, PromptTokens, (s: Sample) => s.promptTokens);
    SumIsTotal(samples, CompletionTokens, (s: Sample) => s.completionTokens);
    SumIsTotal(samples, Tokens, (s: Sample) => s.totalTokens);
    SumIsTotal(samples, Streamed(true), (s: Sample) => if s.isStream then 1 else 0);
    SumIsTotal(samples, StreamedTokens(true), (s: Sample) => if s.isStream then s.totalTokens else 0);
    SumIsTotal(samples, Latency, (s: Sample) => s.durationMs);
  }

  // ----- The ranking -----

  /** The name a sample is counted under: its model's, or these bytes when it has none. */
  predicate Under(s: Sample, name: Text) {
    if s.model != [] then s.model == name else name == [0xE6, 0x9C, 0xAA, 0xE6, 0x8C, 0x87, 0xE5, 0xAE, 0x9A]
  }

  /** In byte order: a beginning comes before what it begins, else the first differing byte decides. */
  ghost predicate Precedes(a: Text, b: Text) {
    exists n: nat :: FirstDifference(a, b, n)
  }

  predicate FirstDifference(a: Text, b: Text, n: nat) {
    n <= |a| && n < |b| && a[..n] == b[..n] && (n == |a| || a[n] < b[n])
  }

  lemma {:induction false} LessPrecedes(a: Text, b: Text)
    requires Less(a, b)
    ensures Precedes(a, b)
  {
    if a == [] || a[0] < b[0] {
      assert FirstDifference(a, b, 0);
    } else {
      LessPrecedes(a[1..], b[1..]);
      var n: nat :| FirstDifference(a[1..], b[1..], n);
      assert a[..n + 1] == [a[0]] + a[1..][..n] && b[..n + 1] == [b[0]] + b[1..][..n];
      assert FirstDifference(a, b, n + 1);
    }
  }

  /**
    * At most eight models are shown, each with its own requests, tokens and failures, those with more requests
    * first and among equals in byte order.
    */
  lemma TopInFigures(d: Data, r: Range, samples: seq<Sample>, truncated: bool)
    requires DashboardIs(d, r, samples, truncated)
    ensures |d.topModels| <= 8
    ensures forall m :: m in d.topModels ==>
              && m.requests == Total(samples, (s: Sample) => if Under(s, m.name) then 1 else 0)
              && m.tokens == Total(samples, (s: Sample) => if Under(s, m.name) then s.totalTokens else 0)
              && m.failed
                 == Total(samples, (s: Sample) => if Under(s, m.name) && !(200 <= s.status < 400) then 1 else 0)
    ensures forall i, j :: 0 <= i < j < |d.topModels| ==>
              var a, b := d.topModels[i], d.topModels[j];
              a.requests > b.requests || (a.requests == b.requests && Precedes(a.name, b.name))
  {
    hide Sum, Total, LatencyIs, StatusIs, SummaryIs, TrendIs, Before, Occurs, StatOf, Precedes;
    var top := d.topModels;
    var all :| Ranking(all, samples) && top == Top(all);
    forall m | m in top
      ensures m.requests == Total(samples, (s: Sample) => if Under(s, m.name) then 1 else 0)
           && m.tokens == Total(samples, (s: Sample) => if Under(s, m.name) then s.totalTokens else 0)
           && m.failed
              == Total(samples, (s: Sample) => if Under(s, m.name) && !(200 <= s.status < 400) then 1 else 0)
    {
      assert m in all;
      OwnFigures(samples, m.name);
    }
    forall i, j | 0 <= i < j < |top|
      ensures top[i].requests > top[j].requests
              || (top[i].requests == top[j].requests && Precedes(top[i].name, top[j].name))
    {
      assert top[i] == all[i] && top[j] == all[j];
      BeforeInFigures(all[i], all[j]);
    }
  }

  lemma BeforeInFigures(a: ModelStat, b: ModelStat)
    requires Before(a, b)
    ensures a.requests > b.requests || (a.requests == b.requests && Precedes(a.name, b.name))
  {
    if a.requests == b.requests {
      LessPrecedes(a.name, b.name);
    }
  }

  lemma OwnFigures(samples: seq<Sample>, name: Text)
    requires Occurs(samples, name)
    ensures var m := StatOf(samples, name);
            && m.requests == Total(samples, (s: Sample) => if Under(s, name) then 1 else 0)
            && m.tokens == Total(samples, (s: Sample) => if Under(s, name) then s.totalTokens else 0)
            && m.failed == Total(samples, (s: Sample) => if Under(s, name) && !(200 <= s.status < 400) then 1 else 0)
  {
    hide Sum, Total;
    assert name != [];
    assert forall s: Sample :: Name(s) == name <==> Under(s, name);
    SumIsTotal(samples, RequestsOf(name), (s: Sample) => if Under(s, name) then 1 else 0);
    SumIsTotal(samples, TokensOf(name), (s: Sample) => if Under(s, name) then s.totalTokens else 0);
    SumIsTotal(samples, FailedOf(name), (s: Sample) => if Under(s, name) && !(200 <= s.status < 400) then 1 else 0);
  }
}
