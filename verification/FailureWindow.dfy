/** Exactly which failing results a closed circuit breaker counts, and when they open it. */
module FailureWindow {
  import opened Breaker
  import opened BreakerRuns

  // ----- What one event does to one upstream -----

  /** The entry that a call on `k` works on: the one there, or a new one when there is none or it is just dropped. */
  function EntryFor(r: Registry, e: Event, k: string): Entry
    requires e.Call? && e.id == k
  {
    if k in r.states && !Evicts(r, e, k) then r.states[k] else NewEntry(e.clock.winStart, e.clock.seen)
  }

  lemma StepOn(cfg: Config, r: Registry, e: Event, k: string)
    ensures var r' := Step(cfg, r, e).reg;
            if e.Call? && e.id == k then
              k in r'.states && r'.states[k] == Apply(cfg, EntryFor(r, e, k), e.op, e.clock.now).b
            else if k in r.states && !Evicts(r, e, k) then k in r'.states && r'.states[k] == r.states[k]
            else k !in r'.states
    ensures e.Call? && e.id == k ==> Step(cfg, r, e).ok == Apply(cfg, EntryFor(r, e, k), e.op, e.clock.now).ok
  {
    hide Apply;
  }

  // ----- The exact count -----

  /** A call that applies the sample window: asking, or asking for a slot, later than the window allows. */
  predicate Asks(e: Event, k: string) {
    e.Call? && e.id == k && (e.op.AllowOp? || e.op.SelectableOp?)
  }

  predicate Restarts(cfg: Config, r: Registry, e: Event, k: string) {
    Asks(e, k) && Is(r, k, Closed) && e.clock.now - r.states[k].winStart > cfg.sampleWindow
  }

  /** The failing results since the last success, the last late call and the last time the upstream was dropped. */
  function Since(cfg: Config, es: seq<Event>, k: string): nat {
    if es == [] then 0
    else
      var before, e := es[..|es| - 1], es[|es| - 1];
      var r := Run(cfg, EmptyRegistry, before);
      if IsResult(e, k, true) then 0
      else
        (if Evicts(r, e, k) || Restarts(cfg, r, e, k) then 0 else Since(cfg, before, k))
        + (if IsResult(e, k, false) then 1 else 0)
  }

  /** In every run a closed breaker has counted exactly those. */
  lemma {:induction false} FailuresAreSince(cfg: Config, es: seq<Event>, k: string)
    ensures var r := Run(cfg, EmptyRegistry, es);
            && (Is(r, k, Closed) ==> r.states[k].failures == Since(cfg, es, k))
            && (k !in r.states ==> Since(cfg, es, k) == 0)
  {
    hide Step, Evicts;
    if es != [] {
      var before, e := es[..|es| - 1], es[|es| - 1];
      FailuresAreSince(cfg, before, k);
      StepOn(cfg, Run(cfg, EmptyRegistry, before), e, k);
    }
  }

  /** A breaker that the event finds closed: it is, or it is new, or the event's own sweep drops it first. */
  predicate FoundClosed(r: Registry, e: Event, k: string) {
    Is(r, k, Closed) || k !in r.states || Evicts(r, e, k)
  }

  /**
    * In every run, whatever other calls and sweeps come between, a call on an upstream that it finds closed
    * leaves it open exactly when it is a failing result and the threshold is reached.
    */
  lemma OpensIff(cfg: Config, es: seq<Event>, e: Event, k: string)
    requires e.Call? && e.id == k && FoundClosed(Run(cfg, EmptyRegistry, es), e, k)
    ensures Is(Step(cfg, Run(cfg, EmptyRegistry, es), e).reg, k, Open) <==>
            IsResult(e, k, false) && Since(cfg, es + [e], k) >= cfg.failureThreshold
  {
    hide Step, Evicts;
    FailuresAreSince(cfg, es, k);
    StepOn(cfg, Run(cfg, EmptyRegistry, es), e, k);
    assert (es + [e])[..|es|] == es;
  }

  /** Nothing else opens an upstream but a failing result of real traffic while half-open. */
  lemma OpensOnlyOnFailure(cfg: Config, r: Registry, e: Event, k: string)
    requires Opens(cfg, r, e, k)
    ensures e.Call? && e.id == k
    ensures FoundClosed(r, e, k) || (Is(r, k, HalfOpen) && e.op == RecordOp(false))
  {
  }

  /** The failing results reported for `k` since its last successful one. */
  function FailRun(es: seq<Event>, k: string): nat {
    if es == [] then 0
    else
      var e := es[|es| - 1];
      if IsResult(e, k, true) then 0
      else FailRun(es[..|es| - 1], k) + (if IsResult(e, k, false) then 1 else 0)
  }

  lemma {:induction false} SinceWithinFailRun(cfg: Config, es: seq<Event>, k: string)
    ensures Since(cfg, es, k) <= FailRun(es, k)
  {
    hide Evicts, Restarts;
    if es != [] {
      SinceWithinFailRun(cfg, es[..|es| - 1], k);
    }
  }

  /** So an upstream that is not half-open opens only after FailureThreshold failing results with no success between. */
  lemma OpensOnlyAfterFailures(cfg: Config, es: seq<Event>, e: Event, k: string)
    requires Opens(cfg, Run(cfg, EmptyRegistry, es), e, k)
    requires !Is(Run(cfg, EmptyRegistry, es), k, HalfOpen)
    ensures IsResult(e, k, false) && FailRun(es + [e], k) >= Since(cfg, es + [e], k) >= cfg.failureThreshold
  {
    hide Step, Since, Evicts;
    OpensOnlyOnFailure(cfg, Run(cfg, EmptyRegistry, es), e, k);
    OpensIff(cfg, es, e, k);
    SinceWithinFailRun(cfg, es + [e], k);
  }

  // ----- The window is only applied when somebody asks -----

  /** Between two failing results: no other result, and the upstream is closed after the first. */
  ghost predicate Successive(cfg: Config, es: seq<Event>, i: nat, j: nat, k: string) {
    && i < j < |es| && IsResult(es[i], k, false) && IsResult(es[j], k, false)
    && (forall m :: i < m < j ==> !IsResult(es[m], k, true) && !IsResult(es[m], k, false))
    && Is(Run(cfg, EmptyRegistry, es[..i + 1]), k, Closed)
  }

  /** This event, after the i-th, makes the breaker forget the i-th result: it asks too late, or drops the upstream. */
  predicate Forgets(cfg: Config, es: seq<Event>, i: nat, m: nat, k: string)
    requires i < m < |es| && es[i].Call?
  {
    || (Asks(es[m], k) && es[m].clock.now - es[i].clock.now > cfg.sampleWindow)
    || Evicts(Run(cfg, EmptyRegistry, es[..m]), es[m], k)
  }

  /** As long as nothing has made it forget, the breaker holds the first result and its time; then it holds nothing. */
  lemma {:induction false} HeldBetween(cfg: Config, es: seq<Event>, i: nat, j: nat, k: string, n: nat)
    requires Successive(cfg, es, i, j, k) && i < n <= j
    ensures var r := Run(cfg, EmptyRegistry, es[..n]);
            if exists m :: i < m < n && Forgets(cfg, es, i, m, k)
            then (Is(r, k, Closed) && r.states[k].failures == 0) || k !in r.states
            else Is(r, k, Closed) && r.states[k].failures == Since(cfg, es[..i + 1], k)
                 && r.states[k].winStart == es[i].clock.now
  {
    hide Since, Step, Evicts;
    assert es[..n][..n - 1] == es[..n - 1];
    if n == i + 1 {
      FailuresAreSince(cfg, es[..n], k);
      StepOn(cfg, Run(cfg, EmptyRegistry, es[..i]), es[i], k);
    } else {
      HeldBetween(cfg, es, i, j, k, n - 1);
      StepOn(cfg, Run(cfg, EmptyRegistry, es[..n - 1]), es[n - 1], k);
      assert Forgets(cfg, es, i, n - 1, k) || !Forgets(cfg, es, i, n - 1, k);
    }
  }

  /**
    * Two successive failing results are both counted exactly when between them the upstream is not dropped
    * and nobody asks for it later than the sample window after the first: the time between the results
    * themselves does not matter.
    */
  lemma BothCountedIff(cfg: Config, es: seq<Event>, i: nat, j: nat, k: string)
    requires Successive(cfg, es, i, j, k)
    ensures Since(cfg, es[..j + 1], k) == Since(cfg, es[..i + 1], k) + 1 <==>
            forall m :: i < m <= j ==> !Forgets(cfg, es, i, m, k)
  {
    hide Step, Evicts;
    HeldBetween(cfg, es, i, j, k, j);
    FailuresAreSince(cfg, es[..j], k);
    assert es[..j + 1][..j] == es[..j] && es[..i + 1][..i] == es[..i];
    assert Forgets(cfg, es, i, j, k) <==> Evicts(Run(cfg, EmptyRegistry, es[..j]), es[j], k);
  }
}
