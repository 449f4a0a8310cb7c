/** Nobody is refused without need: exactly when the rate limiter admits a request, and what recorded tokens cost. */
module LimitGrants {
  import opened Common
  import opened Limits
  import opened LimitBounds
  import opened LimitVolleys

  // ----- The token dimension -----

  function BucketLeft(b: Bucket, now: real): real {
    if now <= b.last then b.tokens
    else if b.tokens + (now - b.last) * b.rate < b.capacity then b.tokens + (now - b.last) * b.rate
    else b.capacity
  }

  function WindowLeft(w: Window, now: real): int {
    if w.start.Some? && now - w.start.value < w.length then w.limit - w.count else w.limit
  }

  /** The tokens a pair may still use: earned back by the second, or the rest of its minute, or all of its rule's. */
  function TokensLeft(l: Limiter, tenant: string, model: string, now: real): real {
    if Key(tenant, model) !in l.limits then Resolve(l.configs, l.standard, tenant, model).tpm as real
    else
      match l.limits[Key(tenant, model)]
      case Tokens(_, _, tpm) => BucketLeft(tpm, now)
      case Windows(_, _, tpm) => WindowLeft(tpm, now) as real
  }

  /** What is left once the visit of this call has been counted: a dropped limit is forgotten with its debt. */
  function TokensFound(l: Limiter, e: Event): real {
    TokensLeft(Counted(l, e.now), e.tenant, e.model, e.now)
  }

  lemma CountedKeepsRules(l: Limiter, now: real)
    ensures Counted(l, now).configs == l.configs && Counted(l, now).standard == l.standard
  {
  }

  lemma NewHasAll(r: Rule, now: real)
    ensures match NewLimit(r, now)
            case Tokens(_, _, tpm) => BucketLeft(tpm, now) == r.tpm as real
            case Windows(_, _, tpm) => WindowLeft(tpm, now) == r.tpm
  {
  }

  function LimitLeft(b: Limit, now: real): real {
    match b
    case Tokens(_, _, tpm) => BucketLeft(tpm, now)
    case Windows(_, _, tpm) => WindowLeft(tpm, now) as real
  }

  lemma FoundHas(l: Limiter, e: Event)
    ensures LimitLeft(Found(l, e.tenant, e.model, e.now), e.now) == TokensLeft(l, e.tenant, e.model, e.now)
  {
    hide Resolve, Key;
    NewHasAll(Resolve(l.configs, l.standard, e.tenant, e.model), e.now);
  }

  /** The windows have a length. */
  predicate Lasting(b: Limit) {
    b.Windows? ==> b.tpmWindow.length > 0.0
  }

  lemma CallCharges(b: Limit, n: int, now: real)
    requires Lasting(b)
    ensures LimitLeft(AllowWith(b, now).limit, now) == LimitLeft(b, now) == LimitLeft(PeekWith(b, now), now)
    ensures LimitLeft(RecordWith(b, n, now), now) == LimitLeft(b, now) - n as real
  {
  }

  lemma CallIsRefused(b: Limit, now: real)
    requires Lasting(b) && LimitLeft(b, now) < 1.0
    ensures !AllowWith(b, now).ok
  {
  }

  /** A recorded use of tokens is charged in full, debt included; requests and looks cost none. */
  lemma RecordedTokensAreCharged(l: Limiter, e: Event)
    requires !Idles(e) && (Key(e.tenant, e.model) in l.limits ==> Lasting(l.limits[Key(e.tenant, e.model)]))
    ensures TokensLeft(Step(l, e).l, e.tenant, e.model, e.now)
         == TokensFound(l, e) - (if e.op.RecordOp? then e.op.tokens as real else 0.0)
  {
    hide AllowWith, PeekWith, RecordWith, LimitLeft, Resolve, Key, Swept, TokensLeft;
    var counted := Counted(l, e.now);
    var b := Found(counted, e.tenant, e.model, e.now);
    FoundHas(counted, e);
    FoundLasts(l, e);
    CallCharges(b, if e.op.RecordOp? then e.op.tokens else 0, e.now);
    LeftInPlace(Step(l, e).l, e);
  }

  lemma LeftInPlace(l: Limiter, e: Event)
    requires Key(e.tenant, e.model) in l.limits
    ensures TokensLeft(l, e.tenant, e.model, e.now) == LimitLeft(l.limits[Key(e.tenant, e.model)], e.now)
  {
  }

  lemma FoundLasts(l: Limiter, e: Event)
    requires Key(e.tenant, e.model) in l.limits ==> Lasting(l.limits[Key(e.tenant, e.model)])
    ensures Lasting(Found(Counted(l, e.now), e.tenant, e.model, e.now))
  {
    hide Resolve, Key;
  }

  // ----- Token bucket: refused exactly when granting would exceed the allowance of some stretch -----

  /** Between calls the level earns the rate until it is full. */
  lemma LevelEarns(l: Limiter, key: string, r: Rule, now: real, later: real)
    requires KeyFilled(l, key, r, now) && now <= later && r.rps > 0
    ensures var earned := Level(l, key, r, now) + r.rps as real * (later - now);
            Level(l, key, r, later) == if earned < r.rps as real then earned else r.rps as real
  {
    var rate := r.rps as real;
    Scales(rate, 0.0, later - now);
    if key in l.limits {
      var b := l.limits[key].rps;
      BucketEarns(b, rate, now, later);
    }
  }

  lemma BucketEarns(b: Bucket, rate: real, now: real, later: real)
    requires b.rate == b.capacity == rate > 0.0 && b.last <= now <= later && b.tokens <= b.capacity
    ensures var earned := Refill(b, now).tokens + rate * (later - now);
            Refill(b, later).tokens == if earned < rate then earned else rate
  {
    var x, y, z := (now - b.last) * rate, rate * (later - now), (later - b.last) * rate;
    assert z == x + y;
    Scales(rate, 0.0, later - now);
    Scales(rate, 0.0, now - b.last);
    assert now > b.last ==> Refill(b, now).tokens == Min(b.tokens + x, rate);
    assert later > b.last ==> Refill(b, later).tokens == Min(b.tokens + z, rate);
  }

  /** For some stretch up to now the level is what its allowance leaves after what was granted in it. */
  lemma {:induction false} LevelIsLeft(l: Limiter, es: seq<Event>, key: string, r: Rule, now: real, to: real)
    returns (from: real)
    requires key !in l.limits && r.strategy == TokenBucket && r.rps > 0 && RateOfKey(l, es, key, r)
    requires Ordered(es) && (es != [] ==> es[|es| - 1].now <= now) && now <= to
    ensures from <= now
    ensures Level(Run(l, es), key, r, now) == Allowance(r.rps, from, now) - Granted(l, es, key, from, to) as real
  {
    hide Step, Level, Grants, Allowance, RateOfKey;
    if es == [] {
      from := now;
      FullAtFirst(l, key, r, now);
    } else {
      var before, e := es[..|es| - 1], es[|es| - 1];
      assert es == before + [e];
      BeforeLast(l, before, e, key, r);
      from := LevelIsLeft(l, before, key, r, e.now, to);
      RunIsFilled(l, before, key, r, e.now);
      LevelPays(Run(l, before), e, key, r);
      RunIsFilled(l, es, key, r, e.now);
      LevelEarns(Run(l, es), key, r, e.now, now);
      AllowanceStep(r.rps, from, e.now, now);
      if Level(Run(l, es), key, r, e.now) + r.rps as real * (now - e.now) >= r.rps as real && e.now < now {
        from := now;
        NoneBefore(l, es, key, now, to);
        FullAllowance(r.rps, now);
      }
    }
  }

  lemma FullAtFirst(l: Limiter, key: string, r: Rule, now: real)
    requires key !in l.limits && r.rps > 0
    ensures Level(l, key, r, now) == Allowance(r.rps, now, now)
  {
    FullAllowance(r.rps, now);
  }

  lemma FullAllowance(rps: int, now: real)
    requires rps > 0
    ensures Allowance(rps, now, now) == rps as real
  {
    assert 1.0 + now - now == 1.0;
  }

  lemma AllowsIff(b: Limit, now: real)
    requires b.Tokens?
    ensures AllowWith(b, now).ok <==> LimitLeft(b, now) >= 1.0 && Refill(b.rps, now).tokens >= 1.0
  {
    hide Truncate, Take;
    assert Refill(b.tpm, now).tokens == BucketLeft(b.tpm, now);
    WholeToken(BucketLeft(b.tpm, now));
    assert Take(b.rps, 1.0, now).1 <==> Refill(b.rps, now).tokens >= 1.0 by {
      TakesIff(b.rps, now);
    }
  }

  lemma WholeToken(x: real)
    ensures Truncate(x) > 0 <==> x >= 1.0
  {
  }

  lemma TakesIff(b: Bucket, now: real)
    ensures Take(b, 1.0, now).1 <==> Refill(b, now).tokens >= 1.0
  {
  }

  lemma GrantedByLevel(l: Limiter, e: Event, key: string, r: Rule)
    requires e.op == AllowOp && Key(e.tenant, e.model) == key && r.strategy == TokenBucket && r.rps > 0
    requires RateOfKey(l, [e], key, r) && KeyFilled(l, key, r, e.now)
    ensures Step(l, e).ok <==> TokensFound(l, e) >= 1.0 && Level(l, key, r, e.now) >= 1.0
  {
    hide AllowWith, LimitLeft, TokensLeft, Resolve, Key, Refill, NewLimit, Swept;
    assert e in [e];
    CountingKeepsLevel(l, key, r, e.now);
    CountedKeepsRules(l, e.now);
    FoundIsFilled(l, e, r);
    FoundHas(Counted(l, e.now), e);
    AllowsIff(Found(Counted(l, e.now), e.tenant, e.model, e.now), e.now);
  }

  /**
    * Token bucket: in every run a request is admitted exactly when the key has a token left and, over every
    * stretch that ends now, one request more stays within the rate times one second more than the stretch.
    */
  lemma BucketGrantsIff(l: Limiter, es: seq<Event>, e: Event, key: string, r: Rule)
    requires key !in l.limits && r.strategy == TokenBucket && r.rps > 0 && RateOfKey(l, es + [e], key, r)
    requires Ordered(es + [e]) && e.op == AllowOp && Key(e.tenant, e.model) == key
    ensures Step(Run(l, es), e).ok <==>
            && TokensFound(Run(l, es), e) >= 1.0
            && forall from :: from <= e.now ==>
                 Granted(l, es, key, from, e.now) as real + 1.0 <= r.rps as real * (1.0 + e.now - from)
  {
    hide Step, Level, Ordered, Grants, TokensFound, Key, Resolve;
    BeforeLast(l, es, e, key, r);
    RunIsFilled(l, es, key, r, e.now);
    RunKeepsRules(l, es);
    GrantedByLevel(Run(l, es), e, key, r);
    if Step(Run(l, es), e).ok {
      forall from | from <= e.now
        ensures Granted(l, es, key, from, e.now) as real + 1.0 <= r.rps as real * (1.0 + e.now - from)
      {
        TokenBucketBound(l, es + [e], key, r, from, e.now);
        OneMoreGranted(l, es, e, key, from);
      }
    } else if TokensFound(Run(l, es), e) >= 1.0 {
      var from := LevelIsLeft(l, es, key, r, e.now, e.now);
      assert Granted(l, es, key, from, e.now) as real + 1.0 > r.rps as real * (1.0 + e.now - from);
    }
  }

  lemma BeforeLast(l: Limiter, es: seq<Event>, e: Event, key: string, r: Rule)
    requires RateOfKey(l, es + [e], key, r) && Ordered(es + [e])
    ensures RateOfKey(l, es, key, r) && RateOfKey(Run(l, es), [e], key, r)
    ensures Ordered(es) && (es != [] ==> es[|es| - 1].now <= e.now)
  {
    hide Key, Resolve, SameRate;
    RunKeepsRules(l, es);
    assert (es + [e])[..|es|] == es;
    assert forall x :: x in es || x == e ==> x in es + [e];
  }

  lemma OneMoreGranted(l: Limiter, es: seq<Event>, e: Event, key: string, from: real)
    requires from <= e.now && e.op == AllowOp && Key(e.tenant, e.model) == key && Step(Run(l, es), e).ok
    ensures Granted(l, es + [e], key, from, e.now) == Granted(l, es, key, from, e.now) + 1
  {
    hide Step;
    assert (es + [e])[..|es|] == es;
  }

  // ----- Window: refused only when less than a second has admitted the rate -----

  /** The window's count was all admitted since it opened. */
  predicate Counting(b: Limit, l: Limiter, es: seq<Event>, key: string, r: Rule, now: real, to: real) {
    && b.Windows? && b.rpsWindow.limit == r.rps && b.rpsWindow.length == 1.0 && b.tpmWindow.length > 0.0
    && b.rpsWindow.count >= 0 && (b.rpsWindow.start.None? ==> b.rpsWindow.count == 0)
    && (b.rpsWindow.start.Some? ==>
          b.rpsWindow.start.value <= now && b.rpsWindow.count <= Granted(l, es, key, b.rpsWindow.start.value, to))
  }

  predicate Earned(m: Limiter, l: Limiter, es: seq<Event>, key: string, r: Rule, now: real, to: real) {
    key in m.limits ==> Counting(m.limits[key], l, es, key, r, now, to)
  }

  lemma GrantedMore(l: Limiter, es: seq<Event>, e: Event, key: string, from: real, to: real)
    ensures Granted(l, es + [e], key, from, to)
         == Granted(l, es, key, from, to) + (if from <= e.now <= to && Grants(Run(l, es), e, key) then 1 else 0)
  {
    assert (es + [e])[..|es|] == es;
  }

  lemma StillCounting(b: Limit, l: Limiter, es: seq<Event>, e: Event, key: string, r: Rule, to: real)
    requires Counting(b, l, es, key, r, e.now, to)
    ensures Counting(b, l, es + [e], key, r, e.now, to)
  {
    hide Granted;
    if b.rpsWindow.start.Some? {
      GrantedMore(l, es, e, key, b.rpsWindow.start.value, to);
    }
  }

  lemma AllowCounts(b: Limit, l: Limiter, es: seq<Event>, e: Event, key: string, r: Rule, to: real)
    requires Counting(b, l, es, key, r, e.now, to) && e.now <= to
    requires AllowWith(b, e.now).ok ==> Grants(Run(l, es), e, key)
    ensures Counting(AllowWith(b, e.now).limit, l, es + [e], key, r, e.now, to)
  {
    hide Granted, Grants, Run;
    var w := AllowWith(b, e.now).limit.rpsWindow;
    if w.start.Some? {
      GrantedMore(l, es, e, key, w.start.value, to);
    }
  }

  lemma OthersCount(b: Limit, n: int, l: Limiter, es: seq<Event>, key: string, r: Rule, now: real, to: real)
    requires Counting(b, l, es, key, r, now, to)
    ensures Counting(RecordWith(b, n, now), l, es, key, r, now, to)
    ensures Counting(PeekWith(b, now), l, es, key, r, now, to)
    ensures Counting(b.(lastSeen := now), l, es, key, r, now, to)
  {
    hide Granted;
  }

  lemma NewCounts(q: Rule, l: Limiter, es: seq<Event>, key: string, r: Rule, now: real, to: real)
    requires r.strategy == SlidingWindow && SameRate(q, r)
    ensures Counting(NewLimit(q, now), l, es, key, r, now, to)
  {
    hide Granted;
  }

  lemma StepCounts(l: Limiter, es: seq<Event>, e: Event, key: string, r: Rule, to: real)
    requires r.strategy == SlidingWindow && RateOfKey(l, es + [e], key, r) && e.now <= to
    requires Earned(Run(l, es), l, es, key, r, e.now, to)
    ensures Earned(Run(l, es + [e]), l, es + [e], key, r, e.now, to)
  {
    hide Run, Counting, Granted, Key, Resolve, NewLimit, SameRate, AllowWith, RecordWith, PeekWith, Swept;
    var m := Run(l, es);
    assert Run(l, es + [e]) == Step(m, e).l by {
      RunMore(l, es, e);
    }
    RunKeepsRules(l, es);
    CountedKeepsRules(m, e.now);
    CountingDrops(m, e.now, key);
    if Idles(e) || Key(e.tenant, e.model) != key {
      if key in Step(m, e).l.limits {
        StillCounting(m.limits[key], l, es, e, key, r, to);
      }
    } else {
      assert e in es + [e];
      var b := Found(Counted(m, e.now), e.tenant, e.model, e.now);
      if key in Counted(m, e.now).limits {
        OthersCount(m.limits[key], 0, l, es, key, r, e.now, to);
      } else {
        NewCounts(Resolve(l.configs, l.standard, e.tenant, e.model), l, es, key, r, e.now, to);
      }
      match e.op
      case AllowOp => AllowCounts(b, l, es, e, key, r, to);
      case RecordOp(n) =>
        StillCounting(b, l, es, e, key, r, to);
        OthersCount(b, n, l, es + [e], key, r, e.now, to);
      case StatusOp =>
        StillCounting(b, l, es, e, key, r, to);
        OthersCount(b, 0, l, es + [e], key, r, e.now, to);
    }
  }

  lemma RunMore(l: Limiter, es: seq<Event>, e: Event)
    ensures Run(l, es + [e]) == Step(Run(l, es), e).l
  {
    assert (es + [e])[..|es|] == es;
  }

  lemma CountingDrops(l: Limiter, now: real, key: string)
    ensures key in Counted(l, now).limits ==> key in l.limits && Counted(l, now).limits[key] == l.limits[key]
  {
  }

  lemma {:induction false} CountsAreEarned(l: Limiter, es: seq<Event>, key: string, r: Rule, now: real, to: real)
    requires key !in l.limits && r.strategy == SlidingWindow && RateOfKey(l, es, key, r)
    requires Ordered(es) && (es != [] ==> es[|es| - 1].now <= now) && now <= to
    ensures Earned(Run(l, es), l, es, key, r, now, to)
  {
    hide Key, Resolve, Step, SameRate, Granted;
    if es != [] {
      var before, e := es[..|es| - 1], es[|es| - 1];
      assert es == before + [e];
      CountsAreEarned(l, before, key, r, e.now, to);
      StepCounts(l, before, e, key, r, to);
    }
  }

  /**
    * Window: in every run a request with a token left is refused only when the rule admits nothing or within
    * less than a second up to now as many requests as its rate were admitted.
    */
  lemma RefusedOnlyWhenFull(l: Limiter, es: seq<Event>, e: Event, key: string, r: Rule) returns (from: real)
    requires key !in l.limits && r.strategy == SlidingWindow && RateOfKey(l, es + [e], key, r)
    requires Ordered(es + [e]) && e.op == AllowOp && Key(e.tenant, e.model) == key
    ensures !Step(Run(l, es), e).ok && TokensFound(Run(l, es), e) >= 1.0 && r.rps > 0 ==>
              e.now - 1.0 < from <= e.now && Granted(l, es, key, from, e.now) >= r.rps
    ensures TokensFound(Run(l, es), e) < 1.0 || r.rps <= 0 ==> !Step(Run(l, es), e).ok
  {
    hide Key, Resolve, Ordered, Granted, Run, NewLimit, AllowWith, LimitLeft, TokensLeft, Swept, SameRate, WindowLeft;
    from := 0.0;
    var m := Run(l, es);
    BeforeLast(l, es, e, key, r);
    RunKeepsRules(l, es);
    CountsAreEarned(l, es, key, r, e.now, e.now);
    CountedKeepsRules(m, e.now);
    CountingDrops(m, e.now, key);
    assert e in es + [e];
    var b := Found(Counted(m, e.now), e.tenant, e.model, e.now);
    if key in Counted(m, e.now).limits {
      OthersCount(m.limits[key], 0, l, es, key, r, e.now, e.now);
    } else {
      NewCounts(Resolve(l.configs, l.standard, e.tenant, e.model), l, es, key, r, e.now, e.now);
    }
    FoundHas(Counted(m, e.now), e);
    WindowAllowsIff(b, e.now);
    if b.rpsWindow.start.Some? {
      from := b.rpsWindow.start.value;
    }
  }

  lemma WindowAllowsIff(b: Limit, now: real)
    requires b.Windows? && b.tpmWindow.length > 0.0 && b.rpsWindow.length == 1.0
    ensures var w := b.rpsWindow;
            var taken := if w.start.Some? && now - w.start.value < 1.0 then w.count else 0;
            AllowWith(b, now).ok <==> LimitLeft(b, now) >= 1.0 && taken < w.limit
  {
  }

  // ----- What the callers are told -----

  /** The remaining number of a granted request is how many more would be granted at once. */
  lemma RemainingIsLeft(b: Limit, now: real)
    requires AllowWith(b, now).ok && Lasting(b) && (b.Windows? ==> b.rpsWindow.length > 0.0)
    ensures var a := AllowWith(b, now);
            a.remaining >= 0 && CanSpend(a.limit, a.remaining, now) && !CanSpend(a.limit, a.remaining + 1, now)
  {
    var a := AllowWith(b, now);
    match b
    case Tokens(_, rps, tpm) =>
      assert Refill(a.limit.rps, now) == a.limit.rps && Refill(a.limit.tpm, now) == a.limit.tpm;
      assert a.limit.rps.tokens >= 0.0;
      assert a.remaining == a.limit.rps.tokens.Floor;
    case Windows(_, rps, tpm) =>
      assert Roll(a.limit.rpsWindow, now) == a.limit.rpsWindow && Roll(a.limit.tpmWindow, now) == a.limit.tpmWindow;
  }

  /** Status reports as used as many requests as were granted at once from a new limit. */
  lemma UsedIsSpent(r: Rule, n: nat, now: real)
    requires n <= r.rps
    ensures Used(PeekWith(NewLimit(r, now), now), r.rps) == 0
    ensures n > 0 ==> Used(PeekWith(Spend(NewLimit(r, now), n, now), now), r.rps) == n
  {
  }
}
