/** How many requests the rate limiter admits over any stretch of time. */
module LimitBounds {
  import opened Common
  import opened Limits

  /** The clock never goes back. */
  predicate Ordered(es: seq<Event>) {
    |es| < 2 || (es[|es| - 2].now <= es[|es| - 1].now && Ordered(es[..|es| - 1]))
  }

  /** Every call that lands on this key resolves to this rule. */
  predicate RuleOfKey(l: Limiter, es: seq<Event>, key: string, r: Rule) {
    forall e :: e in es && Key(e.tenant, e.model) == key ==> Resolve(l.configs, l.standard, e.tenant, e.model) == r
  }

  /** The same limit on requests; the limits on tokens may differ. */
  predicate SameRate(r: Rule, q: Rule) {
    r.strategy == q.strategy && r.rps == q.rps
  }

  /** Every call that lands on this key resolves to a rule with this rate. */
  predicate RateOfKey(l: Limiter, es: seq<Event>, key: string, r: Rule) {
    forall e :: e in es && Key(e.tenant, e.model) == key ==> SameRate(Resolve(l.configs, l.standard, e.tenant, e.model), r)
  }

  predicate Grants(l: Limiter, e: Event, key: string) {
    e.op.AllowOp? && Key(e.tenant, e.model) == key && Step(l, e).ok
  }

  /** The requests admitted for a key between two times, ends included. */
  function Granted(l: Limiter, es: seq<Event>, key: string, from: real, to: real): nat {
    if es == [] then 0
    else
      var before, e := es[..|es| - 1], es[|es| - 1];
      Granted(l, before, key, from, to) + (if from <= e.now <= to && Grants(Run(l, before), e, key) then 1 else 0)
  }

  function Positive(x: int): nat {
    if x > 0 then x else 0
  }

  // ----- Configurations never change; other keys are left alone -----

  lemma StepKeepsRules(l: Limiter, e: Event)
    ensures Step(l, e).l.configs == l.configs && Step(l, e).l.standard == l.standard
  {
    hide Swept, Found, AllowWith, RecordWith, PeekWith;
  }

  lemma {:induction false} RunKeepsRules(l: Limiter, es: seq<Event>)
    ensures Run(l, es).configs == l.configs && Run(l, es).standard == l.standard
  {
    if es != [] {
      RunKeepsRules(l, es[..|es| - 1]);
      StepKeepsRules(Run(l, es[..|es| - 1]), es[|es| - 1]);
    }
  }

  // ----- Token bucket: admission is paid for out of a level that grows no faster than the rate -----

  /** What holds of a rule's request bucket at every moment. */
  predicate Filled(b: Limit, r: Rule, now: real) {
    && b.Tokens?
    && b.rps.capacity == b.rps.rate == r.rps as real
    && b.rps.tokens <= b.rps.capacity
    && (r.rps >= 0 ==> b.rps.tokens >= 0.0)
    && b.rps.last <= b.lastSeen <= now
  }

  predicate KeyFilled(l: Limiter, key: string, r: Rule, now: real) {
    key in l.limits ==> Filled(l.limits[key], r, now)
  }

  /** The tokens a key could spend at this moment: a missing limit would be made full. */
  function Level(l: Limiter, key: string, r: Rule, now: real): real {
    if r.rps <= 0 then 0.0
    else if key in l.limits && l.limits[key].Tokens? then Refill(l.limits[key].rps, now).tokens
    else r.rps as real
  }

  lemma RefillKeeps(b: Bucket, now: real)
    requires b.tokens <= b.capacity == b.rate && (b.rate >= 0.0 ==> b.tokens >= 0.0) && b.last <= now
    ensures var f := Refill(b, now);
            f.capacity == f.rate == b.rate && f.tokens <= b.capacity && f.last == now && (b.rate >= 0.0 ==>
                f.tokens >= b.tokens)
  {
    if b.rate >= 0.0 && now > b.last {
      assert (now - b.last) * b.rate >= 0.0;
    }
  }

  /** One call on the limit of its key: the level pays for exactly what is granted. */
  lemma CallPays(b: Limit, r: Rule, now: real)
    requires Filled(b, r, now) && b.lastSeen == now
    ensures Filled(AllowWith(b, now).limit, r, now) && Filled(PeekWith(b, now), r, now)
    ensures forall n :: Filled(RecordWith(b, n, now), r, now)
    ensures AllowWith(b, now).ok ==> r.rps > 0
    ensures r.rps > 0 ==>
              Refill(AllowWith(b, now).limit.rps, now).tokens
              == Refill(b.rps, now).tokens - (if AllowWith(b, now).ok then 1.0 else 0.0)
    ensures Refill(PeekWith(b, now).rps, now).tokens == Refill(b.rps, now).tokens
  {
    hide Truncate;
    RefillKeeps(b.rps, now);
  }

  lemma NewIsFilled(q: Rule, r: Rule, now: real)
    requires r.strategy == TokenBucket && SameRate(q, r)
    ensures Filled(NewLimit(q, now), r, now)
  {
  }

  /** An hour refills any bucket. */
  lemma IdleIsFull(b: Limit, r: Rule, now: real)
    requires Filled(b, r, now) && r.rps > 0 && now - b.lastSeen > IDLE_TTL
    ensures Refill(b.rps, now).tokens == r.rps as real
  {
    var rate := r.rps as real;
    assert (now - b.rps.last) * rate >= 1.0 * rate by {
      assert (now - b.rps.last - 1.0) * rate >= 0.0;
    }
  }

  lemma CountingKeepsLevel(l: Limiter, key: string, r: Rule, now: real)
    requires KeyFilled(l, key, r, now)
    ensures KeyFilled(Counted(l, now), key, r, now)
    ensures Level(Counted(l, now), key, r, now) == Level(l, key, r, now)
  {
    hide Refill;
    if key in l.limits && r.rps > 0 && now - l.limits[key].lastSeen > IDLE_TTL {
      IdleIsFull(l.limits[key], r, now);
    }
  }

  /** A call lowers its key's level by what it grants and by nothing else, even when it drops or rebuilds limits. */
  lemma LevelPays(l: Limiter, e: Event, key: string, r: Rule)
    requires r.strategy == TokenBucket && KeyFilled(l, key, r, e.now)
    requires RateOfKey(l, [e], key, r)
    ensures KeyFilled(Step(l, e).l, key, r, e.now)
    ensures Grants(l, e, key) ==> r.rps > 0
    ensures Level(Step(l, e).l, key, r, e.now) == Level(l, key, r, e.now) - (if Grants(l, e, key) then 1.0 else 0.0)
  {
    hide Refill, AllowWith, PeekWith, Counted, Resolve, Key, NewLimit;
    if !Idles(e) {
      CountingKeepsLevel(l, key, r, e.now);
      if Key(e.tenant, e.model) == key {
        assert e in [e];
        StepKeepsRules(l, e);
        var counted := Counted(l, e.now);
        var b := Found(counted, e.tenant, e.model, e.now);
        FoundIsFilled(l, e, r);
        CallPays(b, r, e.now);
      }
    }
  }

  lemma FoundIsFilled(l: Limiter, e: Event, r: Rule)
    requires r.strategy == TokenBucket && SameRate(Resolve(l.configs, l.standard, e.tenant, e.model), r)
    requires KeyFilled(Counted(l, e.now), Key(e.tenant, e.model), r, e.now)
    ensures var key := Key(e.tenant, e.model);
            var counted := Counted(l, e.now);
            var b := Found(counted, e.tenant, e.model, e.now);
            Filled(b, r, e.now) && b.lastSeen == e.now && (r.rps > 0 ==>
                Refill(b.rps, e.now).tokens == Level(counted, key, r, e.now))
  {
    hide Swept, Resolve, Key;
    NewIsFilled(Resolve(l.configs, l.standard, e.tenant, e.model), r, e.now);
  }

  lemma LevelGrows(l: Limiter, key: string, r: Rule, now: real, later: real)
    requires KeyFilled(l, key, r, now) && now <= later
    ensures KeyFilled(l, key, r, later)
    ensures 0.0 <= Level(l, key, r, later) <= Positive(r.rps) as real
    ensures Level(l, key, r, later) <= Level(l, key, r, now) + Positive(r.rps) as real * (later - now)
  {
    if r.rps > 0 {
      var rate := r.rps as real;
      assert rate * (later - now) >= 0.0;
      if key in l.limits {
        var b := l.limits[key].rps;
        RefillKeeps(b, later);
        assert (later - b.last) * rate == (now - b.last) * rate + rate * (later - now);
      }
    }
  }

  lemma Scales(rate: real, x: real, y: real)
    requires rate >= 0.0 && x <= y
    ensures rate * x <= rate * y
  {
    assert rate * (y - x) >= 0.0;
  }

  // ----- Runs -----

  lemma {:induction false} RunIsFilled(l: Limiter, es: seq<Event>, key: string, r: Rule, now: real)
    requires key !in l.limits && r.strategy == TokenBucket && RateOfKey(l, es, key, r)
    requires Ordered(es) && (es != [] ==> es[|es| - 1].now <= now)
    ensures KeyFilled(Run(l, es), key, r, now)
  {
    hide Step, Level;
    if es != [] {
      var before, e := es[..|es| - 1], es[|es| - 1];
      RunIsFilled(l, before, key, r, e.now);
      RunKeepsRules(l, before);
      LevelPays(Run(l, before), e, key, r);
      LevelGrows(Run(l, es), key, r, e.now, now);
    }
  }

  /** A full bucket and the refill over the stretch. */
  function Allowance(rps: int, from: real, to: real): real {
    Positive(rps) as real * (1.0 + to - from)
  }

  lemma AllowanceStarts(rps: int, from: real, now: real)
    requires from <= now
    ensures Positive(rps) as real <= Allowance(rps, from, now)
  {
    Scales(Positive(rps) as real, 1.0, 1.0 + now - from);
  }

  lemma AllowanceStep(rps: int, from: real, t: real, now: real)
    ensures Allowance(rps, from, now) == Allowance(rps, from, t) + Positive(rps) as real * (now - t)
  {
  }

  /** While the stretch lasts: what was granted plus what is left never exceeds a full bucket plus the refill. */
  lemma {:induction false} GrantedAndLevel(l: Limiter, es: seq<Event>, key: string, r: Rule, from: real, to: real)
    requires key !in l.limits && r.strategy == TokenBucket && RateOfKey(l, es, key, r)
    requires Ordered(es) && es != [] && from <= es[|es| - 1].now <= to
    ensures var now := es[|es| - 1].now;
            Granted(l, es, key, from, to) as real + Level(Run(l, es), key, r, now) <= Allowance(r.rps, from, now)
    decreases |es|
  {
    hide Step, Level, Grants, Allowance;
    var before, e := es[..|es| - 1], es[|es| - 1];
    RunIsFilled(l, before, key, r, e.now);
    RunKeepsRules(l, before);
    LevelPays(Run(l, before), e, key, r);
    if before == [] || before[|before| - 1].now < from {
      NoneBefore(l, before, key, from, to);
      LevelGrows(Run(l, before), key, r, e.now, e.now);
      AllowanceStarts(r.rps, from, e.now);
    } else {
      var t := before[|before| - 1].now;
      GrantedAndLevel(l, before, key, r, from, to);
      RunIsFilled(l, before, key, r, t);
      LevelGrows(Run(l, before), key, r, t, e.now);
      AllowanceStep(r.rps, from, t, e.now);
    }
  }

  lemma {:induction false} NoneBefore(l: Limiter, es: seq<Event>, key: string, from: real, to: real)
    requires Ordered(es) && (es != [] ==> es[|es| - 1].now < from)
    ensures Granted(l, es, key, from, to) == 0
  {
    if es != [] {
      NoneBefore(l, es[..|es| - 1], key, from, to);
    }
  }

  lemma AllowanceGrows(rps: int, from: real, now: real, to: real)
    requires from <= now <= to
    ensures 0.0 <= Allowance(rps, from, now) <= Allowance(rps, from, to)
  {
    Scales(Positive(rps) as real, 0.0, 1.0 + now - from);
    Scales(Positive(rps) as real, 1.0 + now - from, 1.0 + to - from);
  }

  lemma {:induction false} GrantedWithinAllowance(l: Limiter, es: seq<Event>, key: string, r: Rule, from: real, to: real)
    requires key !in l.limits && r.strategy == TokenBucket && RateOfKey(l, es, key, r)
    requires Ordered(es) && from <= to
    ensures Granted(l, es, key, from, to) as real <= Allowance(r.rps, from, to)
    decreases |es|
  {
    hide Step, Level, Grants, Allowance;
    AllowanceGrows(r.rps, from, from, to);
    if es != [] {
      var before, e := es[..|es| - 1], es[|es| - 1];
      if e.now < from {
        NoneBefore(l, es, key, from, to);
      } else if e.now > to {
        GrantedWithinAllowance(l, before, key, r, from, to);
        assert Granted(l, es, key, from, to) == Granted(l, before, key, from, to);
      } else {
        GrantedAndLevel(l, es, key, r, from, to);
        RunIsFilled(l, es, key, r, e.now);
        LevelGrows(Run(l, es), key, r, e.now, e.now);
        AllowanceGrows(r.rps, from, e.now, to);
      }
    }
  }

  /**
    * Token bucket: from a limiter that has no limit for a key, with fixed configurations, the requests
    * admitted for the key between two times never exceed the rate times one second more than the time
    * between them, however many limits are dropped and rebuilt full on the way.
    */
  lemma TokenBucketBound(l: Limiter, es: seq<Event>, key: string, r: Rule, from: real, to: real)
    requires key !in l.limits && r.strategy == TokenBucket && RateOfKey(l, es, key, r)
    requires Ordered(es) && from <= to
    ensures Granted(l, es, key, from, to) as real <= Positive(r.rps) as real * (1.0 + to - from)
  {
    hide Granted, Positive, RateOfKey, Ordered;
    GrantedWithinAllowance(l, es, key, r, from, to);
  }

  // ----- Fixed windows: at most two of them meet any one second -----

  predicate Windowed(b: Limit, r: Rule, now: real) {
    && b.Windows?
    && b.rpsWindow.limit == r.rps && b.rpsWindow.length == 1.0
    && 0 <= b.rpsWindow.count <= Positive(r.rps)
    && (b.rpsWindow.start.None? ==> b.rpsWindow.count == 0)
    && (b.rpsWindow.start.Some? ==> b.rpsWindow.start.value <= b.lastSeen)
    && b.lastSeen <= now
  }

  /**
    * Between `from` and now, a moment at most a second later, `granted` requests were admitted: all in the
    * current window if that opened no later than `from`, else in it and one full window before it.
    */
  predicate Spent(w: Window, rps: int, from: real, granted: nat) {
    if w.start.None? then granted == 0
    else if w.start.value <= from then granted <= w.count && (granted > 0 ==> from - w.start.value < w.length)
    else granted <= Positive(rps) + w.count
  }

  /** A key's account of the second that starts at `from`: a missing limit means that nothing was admitted in it. */
  predicate KeySpent(l: Limiter, key: string, r: Rule, from: real, granted: nat, now: real) {
    if key in l.limits then
      && Windowed(l.limits[key], r, now)
      && Spent(l.limits[key].rpsWindow, r.rps, from, granted)
      && (granted > 0 ==> l.limits[key].lastSeen >= from)
    else granted == 0
  }

  lemma RollSpends(w: Window, rps: int, from: real, granted: nat, now: real)
    requires w.length == 1.0 && 0 <= w.count <= Positive(rps)
    requires w.start.Some? ==> w.start.value <= now
    requires Spent(w, rps, from, granted) && (granted > 0 ==> from <= now) && now <= from + 1.0
    ensures var v := Roll(w, now);
            && Spent(v, rps, from, granted) && v.start.Some? && now - 1.0 < v.start.value <= now
                && 0 <= v.count <= Positive(rps)
  {
  }

  lemma CallSpends(b: Limit, r: Rule, from: real, granted: nat, now: real)
    requires Windowed(b, r, now) && b.lastSeen == now && now <= from + 1.0
    requires Spent(b.rpsWindow, r.rps, from, granted) && (granted > 0 ==> from <= now)
    ensures var a := AllowWith(b, now);
            && Windowed(a.limit, r, now) && a.limit.lastSeen == now
            && Spent(a.limit.rpsWindow, r.rps, from, granted + (if a.ok && from <= now then 1 else 0))
    ensures Windowed(PeekWith(b, now), r, now) && PeekWith(b, now).lastSeen == now
        && Spent(PeekWith(b, now).rpsWindow, r.rps, from, granted)
  {
    hide Spent;
    RollSpends(b.rpsWindow, r.rps, from, granted, now);
    var v := Roll(b.rpsWindow, now);
    if AllowWith(b, now).ok {
      CountOne(v, r.rps, from, granted, now);
    }
  }

  lemma CountOne(v: Window, rps: int, from: real, granted: nat, now: real)
    requires Spent(v, rps, from, granted) && v.start.Some? && now - v.length < v.start.value <= now
        && v.count < Positive(rps)
    ensures Spent(v.(count := v.count + 1), rps, from, granted + (if from <= now then 1 else 0))
  {
  }

  lemma CountingKeepsSpent(l: Limiter, key: string, r: Rule, from: real, granted: nat, earlier: real, now: real)
    requires KeySpent(l, key, r, from, granted, earlier) && earlier <= now <= from + 1.0
    ensures KeySpent(Counted(l, now), key, r, from, granted, now)
  {
  }

  lemma FoundIsWindowed(l: Limiter, e: Event, r: Rule, from: real, granted: nat)
    requires r.strategy == SlidingWindow && SameRate(Resolve(l.configs, l.standard, e.tenant, e.model), r)
    requires KeySpent(l, Key(e.tenant, e.model), r, from, granted, e.now)
    ensures var b := Found(l, e.tenant, e.model, e.now);
            Windowed(b, r, e.now) && b.lastSeen == e.now && Spent(b.rpsWindow, r.rps, from, granted)
  {
    hide Resolve, Key;
  }

  lemma CallKeepsSpent(l: Limiter, e: Event, key: string, r: Rule, from: real, granted: nat, earlier: real)
    requires r.strategy == SlidingWindow && KeySpent(l, key, r, from, granted, earlier)
    requires earlier <= e.now <= from + 1.0 && (granted > 0 ==> from <= e.now) && RateOfKey(l, [e], key, r)
    ensures KeySpent(Step(l, e).l, key, r, from, granted + (if from <= e.now && Grants(l, e, key) then 1 else 0), e.now)
  {
    hide AllowWith, PeekWith, Counted, Resolve, Key, Spent, Found;
    CountingKeepsSpent(l, key, r, from, granted, earlier, e.now);
    StepKeepsRules(l, e);
    var counted := Counted(l, e.now);
    if Idles(e) {
    } else if Key(e.tenant, e.model) == key {
      assert e in [e];
      FoundIsWindowed(counted, e, r, from, granted);
      CallSpends(Found(counted, e.tenant, e.model, e.now), r, from, granted, e.now);
    }
  }

  /** Up to a second after `from`, what was admitted since is on the key's account. */
  lemma {:induction false} GrantedIsSpent(l: Limiter, es: seq<Event>, key: string, r: Rule, from: real, to: real)
    requires key !in l.limits && r.strategy == SlidingWindow && RateOfKey(l, es, key, r)
    requires Ordered(es) && es != [] && es[|es| - 1].now <= to <= from + 1.0
    ensures KeySpent(Run(l, es), key, r, from, Granted(l, es, key, from, to), es[|es| - 1].now)
  {
    hide Step, Grants, KeySpent;
    var before, e := es[..|es| - 1], es[|es| - 1];
    RunKeepsRules(l, before);
    if before == [] {
      NothingSpent(l, key, r, from, e.now);
      CallKeepsSpent(l, e, key, r, from, 0, e.now);
    } else {
      GrantedIsSpent(l, before, key, r, from, to);
      if before[|before| - 1].now < from {
        NoneBefore(l, before, key, from, to);
      }
      CallKeepsSpent(Run(l, before), e, key, r, from, Granted(l, before, key, from, to), before[|before| - 1].now);
    }
  }

  lemma NothingSpent(l: Limiter, key: string, r: Rule, from: real, now: real)
    requires key !in l.limits
    ensures KeySpent(l, key, r, from, 0, now)
  {
  }

  /**
    * Sliding window: in any stretch of one second the requests admitted for a key never exceed twice the
    * rate, however many limits are dropped and rebuilt on the way.
    */
  lemma {:induction false} SlidingWindowBound(l: Limiter, es: seq<Event>, key: string, r: Rule, from: real, to: real)
    requires key !in l.limits && r.strategy == SlidingWindow && RateOfKey(l, es, key, r)
    requires Ordered(es) && to <= from + 1.0
    ensures Granted(l, es, key, from, to) <= 2 * Positive(r.rps)
  {
    hide Step, Grants;
    if es != [] {
      var before, e := es[..|es| - 1], es[|es| - 1];
      if e.now > to {
        SlidingWindowBound(l, before, key, r, from, to);
        assert Granted(l, es, key, from, to) == Granted(l, before, key, from, to);
      } else {
        GrantedIsSpent(l, es, key, r, from, to);
      }
    }
  }
}
