/** What the circuit breaker keeps over whole runs of the registry. */
module BreakerRuns {
  import opened Breaker

  // ----- Time -----

  function Ends(e: Event): int {
    match e
    case SweepAll(now) => now
    case Call(_, _, c) => c.now
  }

  predicate ForwardEvent(e: Event) {
    e.Call? ==> Forward(e.clock)
  }

  /** The clock never goes back, within an event or from one event to the next. */
  ghost predicate Monotone(es: seq<Event>) {
    && (forall i :: 0 <= i < |es| ==> ForwardEvent(es[i]))
    && (forall i, j :: 0 <= i < j < |es| ==> Ends(es[i]) <= Ends(es[j]))
  }

  lemma {:induction false} RunAppend(cfg: Config, r: Registry, a: seq<Event>, b: seq<Event>)
    ensures Run(cfg, r, a + b) == Run(cfg, Run(cfg, r, a), b)
  {
    hide Step;
    if b == [] {
      assert a + b == a;
    } else {
      RunAppend(cfg, r, a, b[..|b| - 1]);
      assert (a + b)[..|a + b| - 1] == a + b[..|b| - 1];
    }
  }

  predicate Is(r: Registry, k: string, s: State) {
    k in r.states && r.states[k].state == s
  }

  // ----- An open breaker refuses until its time -----

  /** `k` has been open since `t`. */
  predicate OpenSince(r: Registry, k: string, t: int) {
    Is(r, k, Open) && r.states[k].openedAt == t && r.states[k].lastSeen >= t
  }

  /** Before its time an open upstream stays open whatever happens, and Allow refuses it. */
  lemma {:induction false} StaysOpen(cfg: Config, r: Registry, k: string, t: int, e: Event)
    requires cfg.openFor <= IDLE_TTL + 1
    requires OpenSince(r, k, t) && ForwardEvent(e) && Ends(e) < t + cfg.openFor
    ensures Ends(e) >= t ==> OpenSince(Step(cfg, r, e).reg, k, t)
    ensures e.Call? && e.id == k && e.op == AllowOp ==> !Step(cfg, r, e).ok
  {
  }

  /** The event makes `k` open: it was not, and now it is. */
  predicate Opens(cfg: Config, r: Registry, e: Event, k: string) {
    !Is(r, k, Open) && Is(Step(cfg, r, e).reg, k, Open)
  }

  lemma {:induction false} OpeningStamps(cfg: Config, r: Registry, e: Event, k: string)
    requires Opens(cfg, r, e, k)
    ensures OpenSince(Step(cfg, r, e).reg, k, Ends(e))
    ensures e.Call? && e.id == k
  {
  }

  lemma {:induction false} OpenUntil(cfg: Config, es: seq<Event>, i: nat, k: string, n: nat)
    requires cfg.openFor <= IDLE_TTL + 1
    requires Monotone(es) && i < n <= |es|
    requires Opens(cfg, Run(cfg, EmptyRegistry, es[..i]), es[i], k)
    requires Ends(es[n - 1]) < Ends(es[i]) + cfg.openFor
    ensures OpenSince(Run(cfg, EmptyRegistry, es[..n]), k, Ends(es[i]))
  {
    assert es[..n] == es[..n - 1] + [es[n - 1]];
    RunSnoc(cfg, EmptyRegistry, es[..n - 1], es[n - 1]);
    if n == i + 1 {
      OpeningStamps(cfg, Run(cfg, EmptyRegistry, es[..i]), es[i], k);
    } else {
      assert Ends(es[n - 2]) <= Ends(es[n - 1]);
      OpenUntil(cfg, es, i, k, n - 1);
      StaysOpen(cfg, Run(cfg, EmptyRegistry, es[..n - 1]), k, Ends(es[i]), es[n - 1]);
    }
  }

  /**
    * In every run with a clock that never goes back, once an upstream opens no Allow for it is granted
    * before OpenFor has passed: not by other upstreams' traffic, results, probes, releases or sweeps.
    */
  lemma {:induction false} NoAllowWhileOpen(cfg: Config, es: seq<Event>, i: nat, j: nat, k: string)
    requires cfg.openFor <= IDLE_TTL + 1
    requires Monotone(es) && i < j < |es|
    requires Opens(cfg, Run(cfg, EmptyRegistry, es[..i]), es[i], k)
    requires es[j].Call? && es[j].id == k && es[j].op == AllowOp
    requires es[j].clock.now < Ends(es[i]) + cfg.openFor
    ensures !Step(cfg, Run(cfg, EmptyRegistry, es[..j]), es[j]).ok
  {
    assert Ends(es[j - 1]) <= Ends(es[j]);
    OpenUntil(cfg, es, i, k, j);
    StaysOpen(cfg, Run(cfg, EmptyRegistry, es[..j]), k, Ends(es[i]), es[j]);
  }

  predicate IsResult(e: Event, k: string, ok: bool) {
    e.Call? && e.id == k && (e.op == RecordOp(ok) || e.op == ProbeOp(ok))
  }

  // ----- Half-open becomes closed -----

  predicate IsTraffic(e: Event, k: string, ok: bool) {
    e.Call? && e.id == k && e.op == RecordOp(ok)
  }

  /** How many of the events are results of real traffic on `k`. */
  function Records(es: seq<Event>, k: string, ok: bool): nat {
    if es == [] then 0
    else Records(es[..|es| - 1], k, ok) + (if IsTraffic(es[|es| - 1], k, ok) then 1 else 0)
  }

  /** Where the half-open period that `es` ends in began. */
  function PeriodStart(cfg: Config, es: seq<Event>, k: string): (p: nat)
    ensures p <= |es|
  {
    if es == [] || !Is(Run(cfg, EmptyRegistry, es[..|es| - 1]), k, HalfOpen) then |es|
    else PeriodStart(cfg, es[..|es| - 1], k)
  }

  ghost predicate HalfOpenThroughout(cfg: Config, es: seq<Event>, k: string, p: nat) {
    forall q :: p <= q <= |es| ==> Is(Run(cfg, EmptyRegistry, es[..q]), k, HalfOpen)
  }

  lemma {:induction false} RecordsSnoc(es: seq<Event>, p: nat, k: string, ok: bool)
    requires p < |es|
    ensures var e := es[|es| - 1];
            Records(es[p..], k, ok) == Records(es[..|es| - 1][p..], k, ok)
                                       + (if IsTraffic(e, k, ok) then 1 else 0)
  {
    assert es[p..][..|es[p..]| - 1] == es[..|es| - 1][p..];
  }

  /** While half-open, the success counter counts this period's successful results, of which no failing one. */
  lemma {:induction false} SuccessesCounted(cfg: Config, es: seq<Event>, k: string)
    requires Is(Run(cfg, EmptyRegistry, es), k, HalfOpen)
    ensures var p := PeriodStart(cfg, es, k);
            && HalfOpenThroughout(cfg, es, k, p)
            && Run(cfg, EmptyRegistry, es).states[k].successes == Records(es[p..], k, true)
            && (Records(es[p..], k, true) > 0 ==> Records(es[p..], k, true) < cfg.successThreshold)
            && Records(es[p..], k, false) == 0
  {
    hide Step;
    var p := PeriodStart(cfg, es, k);
    assert es[..|es|] == es;
    if es != [] && Is(Run(cfg, EmptyRegistry, es[..|es| - 1]), k, HalfOpen) {
      var init, e := es[..|es| - 1], es[|es| - 1];
      SuccessesCounted(cfg, init, k);
      RecordsSnoc(es, p, k, true);
      RecordsSnoc(es, p, k, false);
      forall q | p <= q <= |es| ensures Is(Run(cfg, EmptyRegistry, es[..q]), k, HalfOpen) {
        if q <= |init| { assert es[..q] == init[..q]; }
      }
      StillHalfOpen(cfg, Run(cfg, EmptyRegistry, init), e, k);
    } else {
      assert es[p..] == [];
      if es != [] {
        EntersHalfOpen(cfg, Run(cfg, EmptyRegistry, es[..|es| - 1]), es[|es| - 1], k);
      }
    }
  }

  lemma {:induction false} StillHalfOpen(cfg: Config, r: Registry, e: Event, k: string)
    requires Is(r, k, HalfOpen) && Is(Step(cfg, r, e).reg, k, HalfOpen)
    ensures var own := e.Call? && e.id == k && e.op.RecordOp?;
            && (own ==> e.op.ok && r.states[k].successes + 1 < cfg.successThreshold)
            && Step(cfg, r, e).reg.states[k].successes == r.states[k].successes + (if own then 1 else 0)
  {
  }

  lemma {:induction false} EntersHalfOpen(cfg: Config, r: Registry, e: Event, k: string)
    requires !Is(r, k, HalfOpen) && Is(Step(cfg, r, e).reg, k, HalfOpen)
    ensures Step(cfg, r, e).reg.states[k].successes == 0
  {
  }

  /** The sweep of this event drops `k`. */
  predicate Evicts(r: Registry, e: Event, k: string) {
    k in r.states && match e
                     case SweepAll(now) => r.states[k].lastSeen < now - IDLE_TTL
                     case Call(_, _, c) => r.visits + 1 >= SWEEP_EVERY && r.states[k].lastSeen < c.sweep - IDLE_TTL
  }

  /** The successes that close a half-open breaker: one, if the threshold is not positive. */
  function Enough(cfg: Config): int {
    if cfg.successThreshold >= 1 then cfg.successThreshold else 1
  }

  /** The event drops `k` and does not open it again in the same call, as a failing result with a threshold of one does. */
  predicate JustEvicts(cfg: Config, r: Registry, e: Event, k: string) {
    Evicts(r, e, k) && !(IsResult(e, k, false) && cfg.failureThreshold <= 1)
  }

  /**
    * In every run, a half-open upstream stops being half-open without opening exactly when it is dropped as
    * idle, or this is the successful result of real traffic that makes SuccessThreshold of them since it
    * became half-open; no failing one has come since then.
    */
  lemma {:induction false} LeavesHalfOpenIff(cfg: Config, es: seq<Event>, e: Event, k: string)
    requires Is(Run(cfg, EmptyRegistry, es), k, HalfOpen)
    ensures var r, p := Run(cfg, EmptyRegistry, es), PeriodStart(cfg, es, k);
            var r' := Step(cfg, r, e).reg;
            && HalfOpenThroughout(cfg, es, k, p) && Records(es[p..], k, false) == 0
            && (!Is(r', k, HalfOpen) && !Is(r', k, Open) <==>
                  || JustEvicts(cfg, r, e, k)
                  || (!Evicts(r, e, k) && IsTraffic(e, k, true) && Records(es[p..] + [e], k, true) == Enough(cfg)))
  {
    var p := PeriodStart(cfg, es, k);
    SuccessesCounted(cfg, es, k);
    LeavingStep(cfg, Run(cfg, EmptyRegistry, es), e, k);
    assert (es[p..] + [e])[..|es[p..]|] == es[p..];
  }

  lemma LeavingStep(cfg: Config, r: Registry, e: Event, k: string)
    requires Is(r, k, HalfOpen)
    ensures var r' := Step(cfg, r, e).reg;
            !Is(r', k, HalfOpen) && !Is(r', k, Open) <==>
            || JustEvicts(cfg, r, e, k)
            || (!Evicts(r, e, k) && IsTraffic(e, k, true) && r.states[k].successes + 1 >= cfg.successThreshold)
  {
  }

  /** An active probe never closes a breaker and never touches a slot, except that entering half-open zeroes them. */
  lemma {:induction false} ProbesAreNeutral(cfg: Config, b: Entry, ok: bool, now: int)
    ensures var b' := RecordProbe(cfg, b, ok, now);
            && (b'.state == Closed ==> b.state == Closed)
            && (if b'.state == HalfOpen && b.state != HalfOpen
                then b.state == Open && ok && now - b.openedAt >= cfg.openFor && b'.inFlight == 0 && b'.successes == 0
                else b'.inFlight == b.inFlight && b'.successes == b.successes)
  {
  }
}
