/** Dropping idle limits: when the caller cannot tell it from keeping them for ever. */
module LimitEviction {
  import opened Common
  import opened Limits
  import opened LimitBounds

  // ----- A limiter that never drops anything -----

  function KeepingStep(l: Limiter, e: Event): Outcome {
    if Idles(e) then Outcome(l, true, 0) else Serve(l, e)
  }

  function KeepingRun(l: Limiter, es: seq<Event>): Limiter {
    if es == [] then l else KeepingStep(KeepingRun(l, es[..|es| - 1]), es[|es| - 1]).l
  }

  // ----- Limits that answer alike from now on -----

  predicate BucketAlike(x: Bucket, y: Bucket, now: real) {
    && x.capacity == y.capacity && x.rate == y.rate
    && x.last <= now && y.last <= now
    && (x == y
        || (x.rate >= 0.0 && Refill(x, now).tokens == x.capacity && Refill(y, now).tokens == y.capacity)
        || (x.rate < 0.0 && x.capacity < 0.0 && x.tokens <= x.capacity && y.tokens <= y.capacity))
  }

  predicate WindowAlike(x: Window, y: Window, now: real) {
    && x.limit == y.limit && x.length == y.length && x.length > 0.0
    && (x == y || (Stale(x, now) && Stale(y, now)))
  }

  predicate Stale(w: Window, now: real) {
    w.start.None? || now - w.start.value >= w.length
  }

  predicate Alike(a: Limit, b: Limit, now: real) {
    match (a, b)
    case (Tokens(_, r1, t1), Tokens(_, r2, t2)) => BucketAlike(r1, r2, now) && BucketAlike(t1, t2, now)
    case (Windows(_, r1, t1), Windows(_, r2, t2)) => WindowAlike(r1, r2, now) && WindowAlike(t1, t2, now)
    case _ => false
  }

  lemma FullLater(x: Bucket, now: real, later: real)
    requires x.rate >= 0.0 && x.last <= now <= later && Refill(x, now).tokens == x.capacity
    ensures Refill(x, later).tokens == x.capacity
  {
    Scales(x.rate, now - x.last, later - x.last);
    if now == x.last {
      Scales(x.rate, 0.0, later - x.last);
    }
  }

  lemma BucketsLater(x: Bucket, y: Bucket, now: real, later: real)
    requires BucketAlike(x, y, now) && now <= later
    ensures BucketAlike(x, y, later)
  {
    hide Refill;
    if x != y && x.rate >= 0.0 {
      FullLater(x, now, later);
      FullLater(y, now, later);
    }
  }

  lemma AlikeLater(a: Limit, b: Limit, now: real, later: real)
    requires Alike(a, b, now) && now <= later
    ensures Alike(a, b, later)
  {
    hide BucketAlike;
    match (a, b)
    case (Tokens(_, r1, t1), Tokens(_, r2, t2)) =>
      BucketsLater(r1, r2, now, later);
      BucketsLater(t1, t2, now, later);
    case (Windows(_, r1, t1), Windows(_, r2, t2)) =>
  }

  lemma RefilledAlike(x: Bucket, y: Bucket, now: real)
    requires BucketAlike(x, y, now)
    ensures BucketAlike(Refill(x, now), Refill(y, now), now)
    ensures Refill(x, now) == Refill(y, now)
            || (x.rate < 0.0 && Refill(x, now).tokens <= x.capacity < 0.0 && Refill(y, now).tokens <= y.capacity < 0.0)
  {
  }

  lemma SpentAlike(x: Bucket, y: Bucket, n: real, now: real)
    requires BucketAlike(x, y, now) && n >= 0.0
    ensures Take(x, n, now).1 == Take(y, n, now).1 && BucketAlike(Take(x, n, now).0, Take(y, n, now).0, now)
    ensures Take(x, n, now).1 ==> Take(x, n, now).0.tokens == Take(y, n, now).0.tokens
    ensures BucketAlike(Consume(x, n, now), Consume(y, n, now), now)
  {
    RefilledAlike(x, y, now);
  }

  lemma RolledAlike(x: Window, y: Window, now: real)
    requires WindowAlike(x, y, now)
    ensures Roll(x, now) == Roll(y, now) && WindowAlike(Roll(x, now), Roll(y, now), now)
  {
  }

  /** The same call on limits that are alike gets the same answer and leaves them alike. */
  lemma CallsAgree(a: Limit, b: Limit, now: real)
    requires Alike(a, b, now)
    ensures AllowWith(a, now).ok == AllowWith(b, now).ok && AllowWith(a, now).remaining == AllowWith(b, now).remaining
    ensures Alike(AllowWith(a, now).limit, AllowWith(b, now).limit, now) && Alike(PeekWith(a, now), PeekWith(b, now), now)
  {
    hide BucketAlike, Refill, Take, Roll;
    match (a, b)
    case (Tokens(_, r1, t1), Tokens(_, r2, t2)) =>
      RefilledAlike(r1, r2, now);
      RefilledAlike(t1, t2, now);
      SpentAlike(r1, r2, 1.0, now);
    case (Windows(_, r1, t1), Windows(_, r2, t2)) =>
      RolledAlike(r1, r2, now);
      RolledAlike(t1, t2, now);
  }

  lemma RecordsAgree(a: Limit, b: Limit, n: nat, now: real)
    requires Alike(a, b, now)
    ensures Alike(RecordWith(a, n, now), RecordWith(b, n, now), now)
  {
    hide BucketAlike, Consume, Roll;
    match (a, b)
    case (Tokens(_, r1, t1), Tokens(_, r2, t2)) => SpentAlike(t1, t2, n as real, now);
    case (Windows(_, r1, t1), Windows(_, r2, t2)) => RolledAlike(t1, t2, now);
  }

  // ----- A limit after an idle hour -----

  /** A limit as the rule made it, used up to `lastSeen`. */
  predicate MadeBy(b: Limit, r: Rule, now: real) {
    && b.lastSeen <= now
    && match b
       case Tokens(seen, rps, tpm) =>
         && r.strategy == TokenBucket
         && rps.capacity == rps.rate == r.rps as real && rps.tokens <= rps.capacity && rps.last <= seen
         && (r.rps >= 0 ==> rps.tokens >= 0.0)
         && tpm.capacity == r.tpm as real && tpm.rate == r.tpm as real / 60.0 && tpm.tokens <= tpm.capacity
             && tpm.last <= seen
       case Windows(seen, rps, tpm) =>
         && r.strategy == SlidingWindow
         && rps.limit == r.rps && rps.length == 1.0 && (rps.start.Some? ==> rps.start.value <= seen)
         && tpm.limit == r.tpm && tpm.length == 60.0 && (tpm.start.Some? ==> tpm.start.value <= seen)
  }

  /** A token bucket's debt of recorded tokens has been refilled by now. */
  predicate Repaid(b: Limit, now: real) {
    b.Tokens? && b.tpm.capacity >= 0.0 ==> Refill(b.tpm, now).tokens == b.tpm.capacity
  }

  predicate Idle(b: Limit, now: real) {
    now - b.lastSeen > IDLE_TTL
  }

  /** A debt of up to 59 minutes of tokens is always repaid by the time the limit is dropped. */
  lemma SmallDebtIsRepaid(b: Limit, r: Rule, now: real)
    requires MadeBy(b, r, now) && Idle(b, now)
    requires b.Tokens? && r.tpm >= 0 ==> b.tpm.tokens >= -59.0 * r.tpm as real
    ensures Repaid(b, now)
  {
    if b.Tokens? && r.tpm >= 0 {
      Scales(b.tpm.rate, 3600.0, now - b.tpm.last);
      assert b.tpm.rate * 3600.0 == 60.0 * r.tpm as real;
      assert b.tpm.tokens + (now - b.tpm.last) * b.tpm.rate >= b.tpm.capacity;
    }
  }

  lemma RequestsAreRefilled(b: Limit, r: Rule, now: real)
    requires MadeBy(b, r, now) && Idle(b, now) && b.Tokens? && r.rps >= 0
    ensures Refill(b.rps, now).tokens == r.rps as real
  {
    var elapsed, rate := now - b.rps.last, b.rps.rate;
    Scales(rate, 1.0, elapsed);
    assert b.rps.tokens + elapsed * rate >= rate;
  }

  lemma RepaidIsAlike(b: Limit, r: Rule, now: real)
    requires MadeBy(b, r, now) && Idle(b, now) && Repaid(b, now)
    ensures Alike(NewLimit(r, now), b, now)
  {
    if b.Tokens? {
      if r.rps >= 0 {
        RequestsAreRefilled(b, r, now);
      }
      assert r.tpm >= 0 <==> b.tpm.rate >= 0.0;
      assert r.rps >= 0 <==> b.rps.rate >= 0.0;
    }
  }

  lemma MadeByKept(b: Limit, r: Rule, n: nat, now: real)
    requires MadeBy(b, r, now) && b.lastSeen == now
    ensures MadeBy(AllowWith(b, now).limit, r, now) && MadeBy(RecordWith(b, n, now), r, now)
        && MadeBy(PeekWith(b, now), r, now)
  {
    hide Truncate;
    match b
    case Tokens(_, rps, tpm) =>
      RefillKeeps(rps, now);
    case Windows(_, _, _) =>
  }

  lemma RepaidLater(b: Limit, r: Rule, now: real, later: real)
    requires MadeBy(b, r, now) && Idle(b, now) && Repaid(b, now) && now <= later
    ensures MadeBy(b, r, later) && Idle(b, later) && Repaid(b, later)
  {
    hide Refill;
    if b.Tokens? && b.tpm.capacity >= 0.0 {
      FullLater(b.tpm, now, later);
    }
  }

  /**
    * For a rule that admits anything at all, an idle limit can be dropped without the next calls noticing
    * exactly when its debt is repaid: otherwise some number of recorded tokens tells the new limit from it.
    */
  lemma InvisibleIffRepaid(b: Limit, r: Rule, now: real)
    requires MadeBy(b, r, now) && Idle(b, now) && r.rps > 0 && r.tpm > 0
    ensures Repaid(b, now) <==>
            forall n: nat :: AllowWith(RecordWith(NewLimit(r, now), n, now), now).ok
                == AllowWith(RecordWith(b, n, now), now).ok
  {
    hide AllowWith, RecordWith, MadeBy, NewLimit;
    var renewed := NewLimit(r, now);
    if Repaid(b, now) {
      RepaidIsAlike(b, r, now);
      forall n: nat ensures AllowWith(RecordWith(renewed, n, now), now).ok == AllowWith(RecordWith(b, n, now), now).ok {
        RecordsAgree(renewed, b, n, now);
        CallsAgree(RecordWith(renewed, n, now), RecordWith(b, n, now), now);
      }
    } else {
      DebtShows(b, r, now);
    }
  }

  /** One token short of the allowance, the new limit still admits and the indebted one does not. */
  lemma DebtShows(b: Limit, r: Rule, now: real)
    requires MadeBy(b, r, now) && Idle(b, now) && r.rps > 0 && r.tpm > 0 && !Repaid(b, now)
    ensures AllowWith(RecordWith(NewLimit(r, now), r.tpm - 1, now), now).ok
    ensures !AllowWith(RecordWith(b, r.tpm - 1, now), now).ok
  {
    var renewed := RecordWith(NewLimit(r, now), r.tpm - 1, now);
    assert Refill(renewed.tpm, now).tokens == 1.0;
    var indebted := RecordWith(b, r.tpm - 1, now);
    assert Refill(indebted.tpm, now).tokens < 1.0;
  }

  // ----- Runs -----

  /** Whenever a sweep drops this key's limit, the debt it would have had is repaid. */
  predicate DropsRepaid(l: Limiter, es: seq<Event>, key: string) {
    es != [] ==>
      var before, e := es[..|es| - 1], es[|es| - 1];
      && DropsRepaid(l, before, key)
      && (Dropped(Run(l, before), e, key) && key in KeepingRun(l, before).limits ==>
          Repaid(KeepingRun(l, before).limits[key], e.now))
  }

  predicate Dropped(l: Limiter, e: Event, key: string) {
    !Idles(e) && key in l.limits && key !in Counted(l, e.now).limits
  }

  /** Both limiters hold limits that answer alike, or the sweeping one holds none and the keeping one a rested one. */
  predicate Related(l: Limiter, kept: Limiter, key: string, r: Rule, now: real) {
    if key in l.limits then
      && key in kept.limits && MadeBy(kept.limits[key], r, now)
      && l.limits[key].lastSeen == kept.limits[key].lastSeen && Alike(l.limits[key], kept.limits[key], now)
    else
      key in kept.limits ==>
        MadeBy(kept.limits[key], r, now) && Idle(kept.limits[key], now) && Repaid(kept.limits[key], now)
  }

  lemma RelatedLater(l: Limiter, kept: Limiter, key: string, r: Rule, now: real, later: real)
    requires Related(l, kept, key, r, now) && now <= later
    ensures Related(l, kept, key, r, later)
  {
    hide Alike, Repaid;
    if key in l.limits {
      AlikeLater(l.limits[key], kept.limits[key], now, later);
    } else if key in kept.limits {
      RepaidLater(kept.limits[key], r, now, later);
    }
  }

  lemma CountingKeepsRelated(l: Limiter, kept: Limiter, e: Event, key: string, r: Rule)
    requires Related(l, kept, key, r, e.now) && !Idles(e)
    requires Dropped(l, e, key) && key in kept.limits ==> Repaid(kept.limits[key], e.now)
    ensures Related(Counted(l, e.now), kept, key, r, e.now)
  {
    hide Alike, Repaid, MadeBy;
  }

  lemma FoundAlike(l: Limiter, kept: Limiter, e: Event, r: Rule)
    requires Related(l, kept, Key(e.tenant, e.model), r, e.now) && l.configs == kept.configs
        && l.standard == kept.standard
    requires Resolve(l.configs, l.standard, e.tenant, e.model) == r
    ensures var a := Found(l, e.tenant, e.model, e.now);
            var b := Found(kept, e.tenant, e.model, e.now);
            Alike(a, b, e.now) && MadeBy(b, r, e.now) && a.lastSeen == b.lastSeen == e.now
  {
    hide Repaid, Resolve, Key;
    var key := Key(e.tenant, e.model);
    if key !in l.limits && key in kept.limits {
      RepaidIsAlike(kept.limits[key], r, e.now);
    }
  }

  /** The same call served by both gets the same answer, and they stay related. */
  lemma ServedAlike(l: Limiter, kept: Limiter, e: Event, key: string, r: Rule)
    requires Related(l, kept, key, r, e.now) && l.configs == kept.configs && l.standard == kept.standard
    requires RuleOfKey(l, [e], key, r) && !Idles(e)
    ensures Related(Serve(l, e).l, Serve(kept, e).l, key, r, e.now)
    ensures Key(e.tenant, e.model) == key ==>
        Serve(l, e).ok == Serve(kept, e).ok && Serve(l, e).remaining == Serve(kept, e).remaining
  {
    hide Alike, Repaid, MadeBy, AllowWith, RecordWith, PeekWith, Found, Resolve, Key;
    if Key(e.tenant, e.model) == key {
      assert e in [e];
      FoundAlike(l, kept, e, r);
      var a, b := Found(l, e.tenant, e.model, e.now), Found(kept, e.tenant, e.model, e.now);
      MadeByKept(b, r, if e.op.RecordOp? then e.op.tokens else 0, e.now);
      SeenKept(a, e.op, e.now);
      SeenKept(b, e.op, e.now);
      CallsAgree(a, b, e.now);
      if e.op.RecordOp? {
        RecordsAgree(a, b, e.op.tokens, e.now);
      }
    }
  }

  lemma SeenKept(b: Limit, op: Op, now: real)
    ensures AllowWith(b, now).limit.lastSeen == PeekWith(b, now).lastSeen == b.lastSeen
    ensures op.RecordOp? ==> RecordWith(b, op.tokens, now).lastSeen == b.lastSeen
  {
    hide Refill, Take, Consume, Roll, Truncate;
  }

  lemma {:induction false} RunsRelated(l: Limiter, es: seq<Event>, key: string, r: Rule, now: real)
    requires l.limits == map[] && Ordered(es) && RuleOfKey(l, es, key, r) && DropsRepaid(l, es, key)
    requires es != [] ==> es[|es| - 1].now <= now
    ensures Related(Run(l, es), KeepingRun(l, es), key, r, now)
    ensures KeepingRun(l, es).configs == l.configs && KeepingRun(l, es).standard == l.standard
  {
    hide Counted, Serve, Related, Repaid;
    if es == [] {
      NothingRelated(l, key, r, now);
    } else {
      var before, e := es[..|es| - 1], es[|es| - 1];
      RunsRelated(l, before, key, r, e.now);
      RunKeepsRules(l, before);
      StepsRelated(Run(l, before), KeepingRun(l, before), e, key, r);
      RelatedLater(Run(l, es), KeepingRun(l, es), key, r, e.now, now);
    }
  }

  lemma NothingRelated(l: Limiter, key: string, r: Rule, now: real)
    requires l.limits == map[]
    ensures Related(l, l, key, r, now)
  {
  }

  lemma StepsRelated(l: Limiter, kept: Limiter, e: Event, key: string, r: Rule)
    requires Related(l, kept, key, r, e.now) && l.configs == kept.configs && l.standard == kept.standard
    requires RuleOfKey(l, [e], key, r)
    requires Dropped(l, e, key) && key in kept.limits ==> Repaid(kept.limits[key], e.now)
    ensures Related(Step(l, e).l, KeepingStep(kept, e).l, key, r, e.now)
    ensures KeepingStep(kept, e).l.configs == kept.configs && KeepingStep(kept, e).l.standard == kept.standard
    ensures Key(e.tenant, e.model) == key ==>
              Step(l, e).ok == KeepingStep(kept, e).ok && Step(l, e).remaining == KeepingStep(kept, e).remaining
  {
    hide Swept, Found, AllowWith, RecordWith, PeekWith, Related, Repaid, Resolve, Key;
    if !Idles(e) {
      CountingKeepsRelated(l, kept, e, key, r);
      ServedAlike(Counted(l, e.now), kept, e, key, r);
    }
  }

  /**
    * Dropping idle limits cannot be observed: in every run, as long as the debts of recorded tokens are
    * repaid whenever a sweep drops the key's limit, each call is answered as by a limiter that drops nothing.
    */
  lemma EvictionUnseen(l: Limiter, es: seq<Event>, e: Event, r: Rule)
    requires l.limits == map[] && Ordered(es + [e])
    requires var key := Key(e.tenant, e.model);
             RuleOfKey(l, es + [e], key, r) && DropsRepaid(l, es + [e], key)
    ensures var o, kept := Step(Run(l, es), e), KeepingStep(KeepingRun(l, es), e);
            o.ok == kept.ok && o.remaining == kept.remaining
  {
    hide Step, KeepingStep, Related, Repaid, Key, Resolve;
    assert (es + [e])[..|es|] == es;
    var key := Key(e.tenant, e.model);
    assert e in es + [e];
    RunsRelated(l, es, key, r, e.now);
    RunKeepsRules(l, es);
    StepsRelated(Run(l, es), KeepingRun(l, es), e, key, r);
  }

  /** The key's tokens are never more than 59 minutes in debt, were nothing dropped. */
  predicate LightDebts(l: Limiter, es: seq<Event>, key: string) {
    && (key in KeepingRun(l, es).limits ==> Light(KeepingRun(l, es).limits[key]))
    && (es != [] ==> LightDebts(l, es[..|es| - 1], key))
  }

  predicate Light(b: Limit) {
    b.Tokens? && b.tpm.capacity >= 0.0 ==> b.tpm.tokens >= -59.0 * b.tpm.capacity
  }

  /** Under a sliding window, or with debts of at most 59 minutes of tokens, every drop is repaid: nobody can tell. */
  lemma {:induction false} LightDebtsAreRepaid(l: Limiter, es: seq<Event>, key: string, r: Rule)
    requires l.limits == map[] && Ordered(es) && RuleOfKey(l, es, key, r)
    requires r.strategy == SlidingWindow || LightDebts(l, es, key)
    ensures DropsRepaid(l, es, key)
  {
    hide Step, KeepingStep, Repaid, Alike, Serve;
    if es != [] {
      var before, e := es[..|es| - 1], es[|es| - 1];
      LightDebtsAreRepaid(l, before, key, r);
      RunsRelated(l, before, key, r, e.now);
      if Dropped(Run(l, before), e, key) {
        SmallDebtIsRepaid(KeepingRun(l, before).limits[key], r, e.now);
      }
    }
  }
}
