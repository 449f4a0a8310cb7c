/** Runs that use a rate limit up: many requests at one moment, before and after the limit recovers. */
module LimitVolleys {
  import opened Common
  import opened Limits
  import opened LimitBounds

  /** The same request so many times. */
  function Volley(e: Event, n: nat): seq<Event> {
    if n == 0 then [] else Volley(e, n - 1) + [e]
  }

  // ----- What a limit has left -----

  /** The limit would grant n requests in a row at this moment. */
  predicate CanSpend(b: Limit, n: nat, now: real) {
    match b
    case Tokens(_, rps, tpm) => Truncate(Refill(tpm, now).tokens) > 0 && Refill(rps, now).tokens >= n as real
    case Windows(_, rps, tpm) => Roll(tpm, now).count < tpm.limit && Roll(rps, now).count + n <= rps.limit
  }

  /** The limit once they are granted. */
  function Spend(b: Limit, n: nat, now: real): Limit {
    match b
    case Tokens(_, rps, tpm) =>
      var r := Refill(rps, now);
      Tokens(now, r.(tokens := r.tokens - n as real), Refill(tpm, now))
    case Windows(_, rps, tpm) =>
      var r := Roll(rps, now);
      Windows(now, r.(count := r.count + n), Roll(tpm, now))
  }

  /** The limit's times are not in the future, and it was used within the idle hour. */
  predicate Recent(b: Limit, now: real) {
    && b.lastSeen <= now <= b.lastSeen + IDLE_TTL
    && match b
       case Tokens(_, rps, tpm) => rps.last <= now && tpm.last <= now
       case Windows(_, rps, tpm) => rps.length > 0.0 && tpm.length > 0.0
  }

  lemma SpendNext(b: Limit, n: nat, now: real)
    requires Recent(b, now)
    ensures Recent(Spend(b, n, now), now) && Spend(Spend(b, n, now), 1, now) == Spend(b, n + 1, now)
    ensures CanSpend(b, n + 1, now) ==> CanSpend(Spend(b, n, now), 1, now)
  {
    hide Truncate;
  }

  lemma RequestSpends(l: Limiter, e: Event)
    requires e.op == AllowOp
    requires var key := Key(e.tenant, e.model);
             key in l.limits && Recent(l.limits[key], e.now) && CanSpend(l.limits[key], 1, e.now)
    ensures var key := Key(e.tenant, e.model);
            var o := Step(l, e);
            o.ok && key in o.l.limits && o.l.limits[key] == Spend(l.limits[key], 1, e.now)
  {
    hide Key, Truncate;
  }

  // ----- A volley in a run -----

  /** The requests admitted for one tenant and model between two times, whoever else shares their key. */
  function GrantedTo(l: Limiter, es: seq<Event>, tenant: string, model: string, from: real, to: real): nat {
    if es == [] then 0
    else
      var before, e := es[..|es| - 1], es[|es| - 1];
      GrantedTo(l, before, tenant, model, from, to)
      + (if from <= e.now <= to && e.tenant == tenant && e.model == model && Grants(Run(l, before), e, Key(tenant, model))
         then 1 else 0)
  }

  lemma Appended(l: Limiter, es: seq<Event>, e: Event, from: real, to: real)
    ensures var all, one := es + [e], if from <= e.now <= to && Grants(Run(l, es), e, Key(e.tenant, e.model)) then 1 else 0;
            && Run(l, all) == Step(Run(l, es), e).l
            && Granted(l, all, Key(e.tenant, e.model), from, to) == Granted(l, es, Key(e.tenant, e.model), from, to) + one
            && GrantedTo(l, all, e.tenant, e.model, from, to) == GrantedTo(l, es, e.tenant, e.model, from, to) + one
            && (Ordered(es) && (es != [] ==> es[|es| - 1].now <= e.now) ==> Ordered(all))
  {
    hide Step, Grants, Key;
    assert (es + [e])[..|es|] == es;
  }

  /** What a run has admitted for the event's tenant and model, both by key and by tenant and model. */
  predicate Admitted(l: Limiter, es: seq<Event>, e: Event, from: real, to: real, n: nat) {
    && Granted(l, es, Key(e.tenant, e.model), from, to) == n
    && GrantedTo(l, es, e.tenant, e.model, from, to) == n
  }

  /** A volley that the limit can serve is granted whole. */
  lemma {:induction false} VolleyGranted(l: Limiter, es: seq<Event>, e: Event, n: nat, from: real, to: real, g: nat)
    requires e.op == AllowOp && Ordered(es) && (es != [] ==> es[|es| - 1].now <= e.now) && Admitted(l, es, e, from, to, g)
    requires var key := Key(e.tenant, e.model);
             && key in Run(l, es).limits && Recent(Run(l, es).limits[key], e.now)
             && CanSpend(Run(l, es).limits[key], n, e.now)
    ensures var all, key := es + Volley(e, n), Key(e.tenant, e.model);
            && Ordered(all) && (all != [] ==> all[|all| - 1].now <= e.now)
            && Admitted(l, all, e, from, to, g + (if from <= e.now <= to then n else 0))
            && key in Run(l, all).limits
            && Run(l, all).limits[key]
               == (if n == 0 then Run(l, es).limits[key] else Spend(Run(l, es).limits[key], n, e.now))
    ensures forall x :: x in es + Volley(e, n) ==> x in es || x == e
  {
    hide Run, Step, Key, Granted, GrantedTo, Ordered, CanSpend, Spend, Recent;
    if n == 0 {
      assert es + Volley(e, n) == es;
    } else {
      var key := Key(e.tenant, e.model);
      var b := Run(l, es).limits[key];
      FewerToo(b, n, e.now);
      VolleyGranted(l, es, e, n - 1, from, to, g);
      var most := es + Volley(e, n - 1);
      assert es + Volley(e, n) == most + [e];
      SpendNext(b, n - 1, e.now);
      SpendNone(b, n, e.now);
      RequestSpends(Run(l, most), e);
      Appended(l, most, e, from, to);
    }
  }

  lemma FewerToo(b: Limit, n: nat, now: real)
    requires n > 0 && CanSpend(b, n, now)
    ensures CanSpend(b, n - 1, now)
  {
  }

  /** The first of n. */
  lemma SpendNone(b: Limit, n: nat, now: real)
    requires n > 0 && CanSpend(b, n, now)
    ensures CanSpend(b, 1, now)
  {
  }

  // ----- A limit made by a first look and used up twice -----

  /** A status request makes the limit of its key and opens the request window, without using any of it. */
  lemma StatusMakes(l: Limiter, e: Event)
    requires e.op == StatusOp && Key(e.tenant, e.model) !in l.limits
    ensures var key := Key(e.tenant, e.model);
            var l' := Run(l, [e]);
            && key in l'.limits
            && l'.limits[key] == PeekWith(NewLimit(Resolve(l.configs, l.standard, e.tenant, e.model), e.now), e.now)
            && Ordered([e])
  {
    hide Key, Resolve, NewLimit, PeekWith;
    assert [e][..0] == [];
  }

  lemma LookAdmitsNothing(l: Limiter, look: Event, e: Event, from: real, to: real)
    requires look.op == StatusOp
    ensures Admitted(l, [look], e, from, to, 0)
  {
    hide Key, Run, Step;
    assert [look][..0] == [];
    assert Granted(l, [], Key(e.tenant, e.model), from, to) == 0 && GrantedTo(l, [], e.tenant, e.model, from, to) == 0;
  }

  /** Twice the rate of a window, around the moment it rolls over a second after the first look. */
  lemma WindowTwice(l: Limiter, look: Event, e: Event) returns (es: seq<Event>)
    requires look.op == StatusOp && look.now == 0.0 && Key(look.tenant, look.model) == Key(e.tenant, e.model)
    requires Key(e.tenant, e.model) !in l.limits && e.op == AllowOp
    requires var r := Resolve(l.configs, l.standard, look.tenant, look.model);
             r.strategy == SlidingWindow && r.rps > 0 && r.tpm > 0
    ensures var r := Resolve(l.configs, l.standard, look.tenant, look.model);
            Ordered(es) && Admitted(l, es, e, 0.9, 1.0, 2 * r.rps)
    ensures forall x :: x in es ==> x == look || (x.tenant == e.tenant && x.model == e.model)
  {
    var r := Resolve(l.configs, l.standard, look.tenant, look.model);
    hide Step, Run, Key, Granted, GrantedTo, Ordered, Resolve;
    var key := Key(e.tenant, e.model);
    var e1, e2 := e.(now := 0.9), e.(now := 1.0);
    StatusMakes(l, look);
    var b := Run(l, [look]).limits[key];
    assert b == Windows(0.0, Window(r.rps, 1.0, 0, Some(0.0)), FreshWindow(r.tpm, 60.0));
    LookAdmitsNothing(l, look, e1, 0.9, 1.0);
    VolleyGranted(l, [look], e1, r.rps, 0.9, 1.0, 0);
    var mid := [look] + Volley(e1, r.rps);
    var b1 := Run(l, mid).limits[key];
    assert b1 == Windows(0.9, Window(r.rps, 1.0, r.rps, Some(0.0)), Window(r.tpm, 60.0, 0, Some(0.9)));
    VolleyGranted(l, mid, e2, r.rps, 0.9, 1.0, r.rps);
    es := mid + Volley(e2, r.rps);
  }

  /** The whole capacity of a bucket at one moment, and again a second later. */
  lemma BucketTwice(l: Limiter, look: Event, e: Event) returns (once: seq<Event>, twice: seq<Event>)
    requires look.op == StatusOp && look.now == 0.0 && Key(look.tenant, look.model) == Key(e.tenant, e.model)
    requires Key(e.tenant, e.model) !in l.limits && e.op == AllowOp
    requires var r := Resolve(l.configs, l.standard, look.tenant, look.model);
             r.strategy == TokenBucket && r.rps > 0 && r.tpm > 0
    ensures var r := Resolve(l.configs, l.standard, look.tenant, look.model);
            && Ordered(once) && Admitted(l, once, e, 0.0, 0.0, r.rps)
            && Ordered(twice) && Admitted(l, twice, e, 0.0, 1.0, 2 * r.rps)
    ensures forall x :: x in once || x in twice ==> x == look || (x.tenant == e.tenant && x.model == e.model)
  {
    var r := Resolve(l.configs, l.standard, look.tenant, look.model);
    hide Step, Run, Key, Granted, GrantedTo, Ordered, Resolve;
    var key := Key(e.tenant, e.model);
    var e1, e2 := e.(now := 0.0), e.(now := 1.0);
    StatusMakes(l, look);
    var b := Run(l, [look]).limits[key];
    var rate, allowance := r.rps as real, FullBucket(r.tpm as real, r.tpm as real / 60.0, 0.0);
    assert b == Tokens(0.0, FullBucket(rate, rate, 0.0), allowance);
    LookAdmitsNothing(l, look, e1, 0.0, 0.0);
    LookAdmitsNothing(l, look, e1, 0.0, 1.0);
    VolleyGranted(l, [look], e1, r.rps, 0.0, 0.0, 0);
    VolleyGranted(l, [look], e1, r.rps, 0.0, 1.0, 0);
    once := [look] + Volley(e1, r.rps);
    var b1 := Run(l, once).limits[key];
    assert b1 == Tokens(0.0, Bucket(rate, rate, 0.0, 0.0), allowance);
    assert Refill(b1.rps, 1.0).tokens == rate;
    VolleyGranted(l, once, e2, r.rps, 0.0, 1.0, r.rps);
    twice := once + Volley(e2, r.rps);
  }
}
