/** What loading new configurations changes for a key, and what it leaves. */
module LimitReload {
  import opened Common
  import opened Limits
  import opened LimitBounds

  /** The key's limit is never dropped in the run. */
  predicate NeverDropped(l: Limiter, es: seq<Event>, key: string) {
    && key in l.limits
    && (es != [] ==>
          var before, e := es[..|es| - 1], es[|es| - 1];
          NeverDropped(l, before, key) && (Idles(e) || key in Counted(Run(l, before), e.now).limits))
  }

  predicate SameFor(l: Limiter, m: Limiter, key: string) {
    l.visits == m.visits && key in l.limits && key in m.limits && l.limits[key] == m.limits[key]
  }

  /**
    * Loading new configurations changes nothing for a key whose limit is not dropped: its limit keeps the
    * thresholds it was made with, and every call on it is answered as without the reload.
    */
  lemma {:induction false} ReloadKeepsThresholds(l: Limiter, configs: seq<Config>, es: seq<Event>, key: string)
    requires NeverDropped(l, es, key)
    ensures var m := l.(configs := configs);
            SameFor(Run(l, es), Run(m, es), key)
    ensures var m := l.(configs := configs);
            es != [] && Key(es[|es| - 1].tenant, es[|es| - 1].model) == key ==>
              var before, e := es[..|es| - 1], es[|es| - 1];
              Step(Run(l, before), e).ok == Step(Run(m, before), e).ok
              && Step(Run(l, before), e).remaining == Step(Run(m, before), e).remaining
  {
    hide Step;
    if es != [] {
      var before, e := es[..|es| - 1], es[|es| - 1];
      ReloadKeepsThresholds(l, configs, before, key);
      StepSameFor(Run(l, before), Run(l.(configs := configs), before), e, key);
    }
  }

  lemma StepSameFor(l: Limiter, m: Limiter, e: Event, key: string)
    requires SameFor(l, m, key) && (Idles(e) || key in Counted(l, e.now).limits)
    ensures SameFor(Step(l, e).l, Step(m, e).l, key)
    ensures Key(e.tenant, e.model) == key ==>
        Step(l, e).ok == Step(m, e).ok && Step(l, e).remaining == Step(m, e).remaining
  {
    hide AllowWith, RecordWith, PeekWith, NewLimit, Resolve, Key;
  }

  /**
    * A key without a limit at its next visit, or whose limit that visit drops, is served by the new
    * configurations: exactly as by a limiter that has just been made with them.
    */
  lemma ReloadServesNewRule(l: Limiter, configs: seq<Config>, e: Event)
    requires !Idles(e) && Key(e.tenant, e.model) !in Counted(l, e.now).limits
    ensures var o, made := Step(l.(configs := configs), e), Step(NewLimiter(configs, l.standard), e);
            var key := Key(e.tenant, e.model);
            && o.ok == made.ok && o.remaining == made.remaining
            && key in o.l.limits && key in made.l.limits && o.l.limits[key] == made.l.limits[key]
  {
    hide AllowWith, RecordWith, PeekWith, NewLimit, Resolve, Key;
  }

  /** So from a reload on, a key that has no limit is bounded by the rate it has now, whatever it had before. */
  lemma ReloadBoundsAbsent(
    l: Limiter, configs: seq<Config>, es: seq<Event>, key: string, r: Rule, from: real, to: real)
    requires key !in l.limits && Ordered(es) && from <= to && RateOfKey(l.(configs := configs), es, key, r)
    ensures var granted := Granted(l.(configs := configs), es, key, from, to);
            match r.strategy
            case TokenBucket => granted as real <= Positive(r.rps) as real * (1.0 + to - from)
            case SlidingWindow => to <= from + 1.0 ==> granted <= 2 * Positive(r.rps)
  {
    if r.strategy == TokenBucket {
      TokenBucketBound(l.(configs := configs), es, key, r, from, to);
    } else if to <= from + 1.0 {
      SlidingWindowBound(l.(configs := configs), es, key, r, from, to);
    }
  }
}
