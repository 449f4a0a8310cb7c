/** The rate limiter's "sliding" window is a fixed one: what a single second admits. */
module LimitWindows {
  import opened Common
  import opened Limits
  import opened LimitBounds
  import opened LimitVolleys

  // ----- A rule whose token limit admits nothing -----

  predicate Starved(b: Limit) {
    b.Windows? && b.tpmWindow.limit <= 0 && b.tpmWindow.count >= 0
  }

  lemma StarvedStays(b: Limit, e: Event)
    requires Starved(b) && !Idles(e)
    ensures !AllowWith(b, e.now).ok && Starved(AllowWith(b, e.now).limit) && Starved(PeekWith(b, e.now))
    ensures e.op.RecordOp? ==> Starved(RecordWith(b, e.op.tokens, e.now))
  {
  }

  lemma StarvedGrantsNothing(l: Limiter, e: Event, key: string, r: Rule)
    requires r.strategy == SlidingWindow && r.tpm <= 0
    requires Key(e.tenant, e.model) == key ==> Resolve(l.configs, l.standard, e.tenant, e.model) == r
    requires key in l.limits ==> Starved(l.limits[key])
    ensures var o := Step(l, e);
            !Grants(l, e, key) && (key in o.l.limits ==> Starved(o.l.limits[key]))
  {
    hide AllowWith, PeekWith, RecordWith, Key, Resolve, Starved;
    if !Idles(e) && Key(e.tenant, e.model) == key {
      var counted := Counted(l, e.now);
      var b := Found(counted, e.tenant, e.model, e.now);
      assert Starved(b) by {
        NewIsStarved(r, e.now);
        assert key in counted.limits ==> Starved(counted.limits[key]);
        SeenIsStarved(counted, key, e.now);
      }
      StarvedStays(b, e);
    }
  }

  lemma NewIsStarved(r: Rule, now: real)
    requires r.strategy == SlidingWindow && r.tpm <= 0
    ensures Starved(NewLimit(r, now))
  {
  }

  lemma SeenIsStarved(l: Limiter, key: string, now: real)
    requires key in l.limits ==> Starved(l.limits[key])
    ensures key in l.limits ==> Starved(l.limits[key].(lastSeen := now))
  {
  }

  lemma {:induction false} NothingGranted(l: Limiter, es: seq<Event>, key: string, r: Rule, from: real, to: real)
    requires key !in l.limits && r.strategy == SlidingWindow && r.tpm <= 0 && RuleOfKey(l, es, key, r)
    ensures Granted(l, es, key, from, to) == 0
    ensures key in Run(l, es).limits ==> Starved(Run(l, es).limits[key])
  {
    hide Step, Grants, Starved, Key, Resolve;
    if es != [] {
      var before, e := es[..|es| - 1], es[|es| - 1];
      assert e in es;
      NothingGranted(l, before, key, r, from, to);
      RunKeepsRules(l, before);
      StarvedGrantsNothing(Run(l, before), e, key, r);
    }
  }

  // ----- Exactly when no second exceeds the rate -----

  /** In every run, no stretch of at most a second admits more than the rate for this key. */
  ghost predicate SecondHoldsRate(l: Limiter, key: string, r: Rule) {
    forall es, from, to :: Ordered(es) && RuleOfKey(l, es, key, r) && to <= from + 1.0 ==>
      Granted(l, es, key, from, to) <= Positive(r.rps)
  }

  /** For every rate and token limit that admit anything, a run admits exactly twice the rate within a tenth of a second. */
  lemma WindowBursts(l: Limiter, tenant: string, model: string) returns (es: seq<Event>)
    requires Key(tenant, model) !in l.limits
    requires var r := Resolve(l.configs, l.standard, tenant, model);
             r.strategy == SlidingWindow && r.rps > 0 && r.tpm > 0
    ensures var r := Resolve(l.configs, l.standard, tenant, model);
            && Ordered(es) && RuleOfKey(l, es, Key(tenant, model), r)
            && Granted(l, es, Key(tenant, model), 0.9, 1.0) == 2 * r.rps
  {
    hide Ordered, Granted, GrantedTo, Resolve;
    es := WindowTwice(l, Event(tenant, model, StatusOp, 0.0), Event(tenant, model, AllowOp, 0.0));
  }

  /**
    * No run admits more than the rate within any second exactly when the rule admits nothing at all; otherwise
    * twice the rate is reached.
    */
  lemma SecondHoldsRateIff(l: Limiter, tenant: string, model: string)
    requires Key(tenant, model) !in l.limits
    requires Resolve(l.configs, l.standard, tenant, model).strategy == SlidingWindow
    ensures var r := Resolve(l.configs, l.standard, tenant, model);
            SecondHoldsRate(l, Key(tenant, model), r) <==> r.rps <= 0 || r.tpm <= 0
  {
    hide Ordered, Granted, Resolve, Key;
    var r, key := Resolve(l.configs, l.standard, tenant, model), Key(tenant, model);
    if r.rps > 0 && r.tpm > 0 {
      var es := WindowBursts(l, tenant, model);
      assert Granted(l, es, key, 0.9, 1.0) > Positive(r.rps);
    } else {
      forall es, from, to | Ordered(es) && RuleOfKey(l, es, key, r) && to <= from + 1.0
        ensures Granted(l, es, key, from, to) <= Positive(r.rps)
      {
        if r.tpm <= 0 {
          NothingGranted(l, es, key, r, from, to);
        } else {
          SlidingWindowBound(l, es, key, r, from, to);
        }
      }
    }
  }

  // ----- A stretch in which no window opens -----

  function StartOf(l: Limiter, key: string): Option<real> {
    if key in l.limits && l.limits[key].Windows? then l.limits[key].rpsWindow.start else None
  }

  /** The event opens a new request window for the key. */
  predicate OpensWindow(l: Limiter, e: Event, key: string) {
    StartOf(Step(l, e).l, key).Some? && StartOf(Step(l, e).l, key) != StartOf(l, key)
  }

  /** No event from `from` to `to` opens a window of the key. */
  predicate NoneOpens(l: Limiter, es: seq<Event>, key: string, from: real, to: real) {
    es != [] ==>
      var before, e := es[..|es| - 1], es[|es| - 1];
      NoneOpens(l, before, key, from, to) && (from <= e.now <= to ==> !OpensWindow(Run(l, before), e, key))
  }

  predicate Accounted(b: Limit, r: Rule, granted: nat, now: real) {
    && b.lastSeen <= now && b.Windows? && b.rpsWindow.limit == r.rps && b.rpsWindow.length > 0.0 && b.rpsWindow.count >= 0
    && (b.rpsWindow.start.Some? ==> granted <= b.rpsWindow.count && b.rpsWindow.start.value <= b.lastSeen)
  }

  /** What was admitted since the stretch began is in the key's open window, if there is one. */
  predicate InOneWindow(l: Limiter, key: string, r: Rule, granted: nat, now: real) {
    granted <= Positive(r.rps) && (key in l.limits ==> Accounted(l.limits[key], r, granted, now))
  }

  lemma CallAccounted(b: Limit, r: Rule, granted: nat, now: real)
    requires Accounted(b, r, granted, now) && b.lastSeen == now && granted <= Positive(r.rps)
    ensures var a := AllowWith(b, now);
            && (a.limit.rpsWindow.start == b.rpsWindow.start ==>
                  Accounted(a.limit, r, granted + (if a.ok then 1 else 0), now)
                  && granted + (if a.ok then 1 else 0) <= Positive(r.rps))
            && (granted == 0 ==> Accounted(a.limit, r, 0, now))
            && a.limit.Windows? && (a.limit.rpsWindow.start.None? ==> b.rpsWindow.start.None?)
    ensures var p := PeekWith(b, now);
            && p.Windows? && (p.rpsWindow.start == b.rpsWindow.start ==> Accounted(p, r, granted, now))
            && (granted == 0 ==> Accounted(p, r, 0, now))
            && (p.rpsWindow.start.None? ==> b.rpsWindow.start.None?)
    ensures forall n :: Accounted(RecordWith(b, n, now), r, granted, now)
  {
  }

  lemma FoundAccounted(l: Limiter, e: Event, r: Rule, granted: nat)
    requires InOneWindow(l, Key(e.tenant, e.model), r, granted, e.now) && r.strategy == SlidingWindow
    requires SameRate(Resolve(l.configs, l.standard, e.tenant, e.model), r)
    ensures var b := Found(l, e.tenant, e.model, e.now);
            && Accounted(b, r, granted, e.now) && b.lastSeen == e.now
            && b.rpsWindow.start == StartOf(l, Key(e.tenant, e.model))
  {
    hide Key, Resolve;
  }

  lemma CountingInOneWindow(l: Limiter, key: string, r: Rule, granted: nat, now: real)
    requires InOneWindow(l, key, r, granted, now)
    ensures InOneWindow(Counted(l, now), key, r, granted, now)
    ensures StartOf(Counted(l, now), key) == StartOf(l, key) || key !in Counted(l, now).limits
    ensures key in l.limits && key !in Counted(l, now).limits && StartOf(l, key).Some? ==> StartOf(l, key).value < now
  {
  }

  lemma StepInOneWindow(l: Limiter, e: Event, key: string, r: Rule, granted: nat)
    requires InOneWindow(l, key, r, granted, e.now) && r.strategy == SlidingWindow && RateOfKey(l, [e], key, r)
    ensures !OpensWindow(l, e, key) ==>
              InOneWindow(Step(l, e).l, key, r, granted + (if Grants(l, e, key) then 1 else 0), e.now)
    ensures granted == 0 ==> InOneWindow(Step(l, e).l, key, r, 0, e.now)
  {
    hide Key, Resolve, Counted, Found, AllowWith, PeekWith, RecordWith, Accounted;
    if !Idles(e) {
      var counted := Counted(l, e.now);
      CountingInOneWindow(l, key, r, granted, e.now);
      if Key(e.tenant, e.model) == key {
        assert e in [e];
        StepKeepsRules(l, e);
        CountingKeepsRules(l, e.now);
        FoundAccounted(counted, e, r, granted);
        CallAccounted(Found(counted, e.tenant, e.model, e.now), r, granted, e.now);
        if key in l.limits && key !in counted.limits {
          NewlyOpened(l, e, key, r, granted);
        }
      }
    }
  }

  lemma CountingKeepsRules(l: Limiter, now: real)
    ensures Counted(l, now).configs == l.configs && Counted(l, now).standard == l.standard
  {
  }

  /** A call that grants a request on a limit without an open window opens one, later than any before. */
  lemma NewlyOpened(l: Limiter, e: Event, key: string, r: Rule, granted: nat)
    requires !Idles(e) && Key(e.tenant, e.model) == key && InOneWindow(l, key, r, granted, e.now)
    requires r.strategy == SlidingWindow && RateOfKey(l, [e], key, r) && key in l.limits && key !in Counted(l, e.now).limits
    ensures StartOf(Step(l, e).l, key).Some? ==> StartOf(Step(l, e).l, key) != StartOf(l, key)
  {
    hide Key, Resolve;
    assert e in [e];
  }

  lemma LaterInOneWindow(l: Limiter, key: string, r: Rule, granted: nat, now: real, later: real)
    requires InOneWindow(l, key, r, granted, now) && now <= later
    ensures InOneWindow(l, key, r, granted, later)
  {
  }

  /** A stretch of any length in which no window of the key opens admits at most the rate. */
  lemma {:induction false} OneWindowBound(l: Limiter, es: seq<Event>, key: string, r: Rule, from: real, to: real)
    requires key !in l.limits && r.strategy == SlidingWindow && RateOfKey(l, es, key, r) && Ordered(es)
    requires NoneOpens(l, es, key, from, to)
    ensures Granted(l, es, key, from, to) <= Positive(r.rps)
    ensures es != [] && es[|es| - 1].now <= to ==>
              InOneWindow(Run(l, es), key, r, Granted(l, es, key, from, to), es[|es| - 1].now)
  {
    hide Step, Grants, InOneWindow, OpensWindow, RateOfKey, Key;
    if es != [] {
      var before, e := es[..|es| - 1], es[|es| - 1];
      RateOfPrefix(l, es, key, r);
      OneWindowBound(l, before, key, r, from, to);
      RunKeepsRules(l, before);
      if e.now <= to {
        if e.now < from {
          NoneBefore(l, before, key, from, to);
        }
        if before == [] {
          NothingInWindow(l, key, r, e.now);
        } else {
          LaterInOneWindow(Run(l, before), key, r, Granted(l, before, key, from, to), before[|before| - 1].now, e.now);
        }
        RateOfLast(l, Run(l, before), es, key, r);
        StepInOneWindow(Run(l, before), e, key, r, Granted(l, before, key, from, to));
        WithinRate(Run(l, es), key, r, Granted(l, es, key, from, to), e.now);
      }
    }
  }

  lemma NothingInWindow(l: Limiter, key: string, r: Rule, now: real)
    requires key !in l.limits
    ensures InOneWindow(l, key, r, 0, now)
  {
  }

  lemma WithinRate(l: Limiter, key: string, r: Rule, granted: nat, now: real)
    requires InOneWindow(l, key, r, granted, now)
    ensures granted <= Positive(r.rps)
  {
  }

  lemma RateOfPrefix(l: Limiter, es: seq<Event>, key: string, r: Rule)
    requires es != [] && RateOfKey(l, es, key, r)
    ensures RateOfKey(l, es[..|es| - 1], key, r)
  {
  }

  lemma RateOfLast(l: Limiter, m: Limiter, es: seq<Event>, key: string, r: Rule)
    requires es != [] && RateOfKey(l, es, key, r) && m.configs == l.configs && m.standard == l.standard
    ensures RateOfKey(m, [es[|es| - 1]], key, r)
  {
    assert es[|es| - 1] in es;
  }
}
