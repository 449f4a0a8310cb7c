/** Who shares a limit, and what that does to the bounds each tenant and model is promised. */
module LimitKeys {
  import opened Common
  import opened Limits
  import opened LimitBounds
  import opened LimitVolleys

  // ----- One rule for each key -----

  /** Keys tell tenants and models apart when no tenant contains the separator. */
  lemma {:induction false} KeysTellApart(t1: string, m1: string, t2: string, m2: string)
    requires '|' !in t1 && '|' !in t2 && Key(t1, m1) == Key(t2, m2)
    ensures t1 == t2 && m1 == m2
  {
    if t1 == "" || t2 == "" {
      assert Key(t1, m1)[|t1|] == '|' && Key(t2, m2)[|t2|] == '|';
      assert t1 == t2;
      assert m1 == Key(t1, m1)[1..] && m2 == Key(t2, m2)[1..];
    } else {
      assert t1[0] == Key(t1, m1)[0] && t2[0] == Key(t2, m2)[0];
      assert Key(t1[1..], m1) == Key(t1, m1)[1..] && Key(t2[1..], m2) == Key(t2, m2)[1..];
      KeysTellApart(t1[1..], m1, t2[1..], m2);
      assert t1 == [t1[0]] + t1[1..] && t2 == [t2[0]] + t2[1..];
    }
  }

  /** With no separator in a tenant, both bounds hold for every tenant and model under the rule it resolves to. */
  lemma TenantsAreBounded(l: Limiter, es: seq<Event>, tenant: string, model: string, from: real, to: real)
    requires l.limits == map[] && Ordered(es) && from <= to
    requires '|' !in tenant && forall e :: e in es ==> '|' !in e.tenant
    ensures var r := Resolve(l.configs, l.standard, tenant, model);
            var granted := Granted(l, es, Key(tenant, model), from, to);
            match r.strategy
            case TokenBucket => granted as real <= Positive(r.rps) as real * (1.0 + to - from)
            case SlidingWindow => to <= from + 1.0 ==> granted <= 2 * Positive(r.rps)
  {
    hide Granted, Resolve, Key;
    var r := Resolve(l.configs, l.standard, tenant, model);
    forall e | e in es && Key(e.tenant, e.model) == Key(tenant, model)
      ensures SameRate(Resolve(l.configs, l.standard, e.tenant, e.model), r)
    {
      KeysTellApart(tenant, model, e.tenant, e.model);
    }
    if r.strategy == TokenBucket {
      TokenBucketBound(l, es, Key(tenant, model), r, from, to);
    } else if to <= from + 1.0 {
      SlidingWindowBound(l, es, Key(tenant, model), r, from, to);
    }
  }

  // ----- Sharing a key -----

  datatype User = User(tenant: string, model: string)

  function KeyOf(u: User): string {
    Key(u.tenant, u.model)
  }

  function RuleOf(l: Limiter, u: User): Rule {
    Resolve(l.configs, l.standard, u.tenant, u.model)
  }

  /** Only these two use their key. */
  predicate OnlyUsers(es: seq<Event>, u: User, v: User) {
    forall e :: e in es && Key(e.tenant, e.model) == KeyOf(u) ==>
      User(e.tenant, e.model) == u || User(e.tenant, e.model) == v
  }

  /** What a rule promises about one stretch of time. */
  predicate Promise(r: Rule, granted: nat, from: real, to: real) {
    match r.strategy
    case TokenBucket => granted as real <= Positive(r.rps) as real * (1.0 + to - from)
    case SlidingWindow => to <= from + 1.0 ==> granted <= 2 * Positive(r.rps)
  }

  predicate WithinOwnRule(l: Limiter, es: seq<Event>, u: User, from: real, to: real) {
    Promise(RuleOf(l, u), GrantedTo(l, es, u.tenant, u.model, from, to), from, to)
  }

  /** In every run that only these two make on their key, each is kept to what its own rule promises. */
  ghost predicate KeptToOwnRules(l: Limiter, u: User, v: User) {
    forall es, from, to :: Ordered(es) && OnlyUsers(es, u, v) && from <= to ==>
      WithinOwnRule(l, es, u, from, to) && WithinOwnRule(l, es, v, from, to)
  }

  lemma {:induction false} OwnWithinKey(l: Limiter, es: seq<Event>, u: User, from: real, to: real)
    ensures GrantedTo(l, es, u.tenant, u.model, from, to) <= Granted(l, es, KeyOf(u), from, to)
  {
    hide Step, Run, Key;
    if es != [] {
      OwnWithinKey(l, es[..|es| - 1], u, from, to);
    }
  }

  /** With the same rate for both, each is kept to it, since their requests together are. */
  lemma SameRateKeeps(l: Limiter, u: User, v: User, es: seq<Event>, from: real, to: real)
    requires l.limits == map[] && KeyOf(u) == KeyOf(v) && SameRate(RuleOf(l, u), RuleOf(l, v))
    requires Ordered(es) && OnlyUsers(es, u, v) && from <= to
    ensures WithinOwnRule(l, es, u, from, to)
  {
    hide Granted, GrantedTo, Key, Resolve;
    var r := RuleOf(l, u);
    assert RateOfKey(l, es, KeyOf(u), r) by {
      forall e | e in es && Key(e.tenant, e.model) == KeyOf(u)
        ensures SameRate(Resolve(l.configs, l.standard, e.tenant, e.model), r)
      {
        assert User(e.tenant, e.model) == u || User(e.tenant, e.model) == v;
      }
    }
    OwnWithinKey(l, es, u, from, to);
    if r.strategy == TokenBucket {
      TokenBucketBound(l, es, KeyOf(u), r, from, to);
    } else if to <= from + 1.0 {
      SlidingWindowBound(l, es, KeyOf(u), r, from, to);
    }
    FewerKeepPromise(r, GrantedTo(l, es, u.tenant, u.model, from, to), Granted(l, es, KeyOf(u), from, to), from, to);
  }

  lemma FewerKeepPromise(r: Rule, fewer: nat, granted: nat, from: real, to: real)
    requires fewer <= granted && Promise(r, granted, from, to)
    ensures Promise(r, fewer, from, to)
  {
  }

  /** The limit that `maker` makes lets through more than `r` promises. */
  predicate Exceeds(maker: Rule, r: Rule) {
    if maker.strategy == SlidingWindow && r.strategy == TokenBucket then maker.rps >= r.rps else maker.rps > r.rps
  }

  lemma OneExceeds(r: Rule, q: Rule)
    requires !SameRate(r, q)
    ensures Exceeds(r, q) || Exceeds(q, r)
  {
  }

  /** A run in which one of them makes the limit with a first look and the other is then admitted past its own rule. */
  lemma MakerOverrides(l: Limiter, maker: User, u: User) returns (es: seq<Event>, from: real, to: real)
    requires l.limits == map[] && KeyOf(maker) == KeyOf(u) && Exceeds(RuleOf(l, maker), RuleOf(l, u))
    requires RuleOf(l, maker).rps > 0 && RuleOf(l, maker).tpm > 0 && RuleOf(l, u).rps > 0
    ensures Ordered(es) && from <= to && OnlyUsers(es, maker, u) && OnlyUsers(es, u, maker)
    ensures !WithinOwnRule(l, es, u, from, to)
  {
    hide Granted, GrantedTo, Ordered, Key, Resolve;
    var r, q := RuleOf(l, maker), RuleOf(l, u);
    var look, e := Event(maker.tenant, maker.model, StatusOp, 0.0), Event(u.tenant, u.model, AllowOp, 0.0);
    if r.strategy == SlidingWindow {
      es := WindowTwice(l, look, e);
      from, to := 0.9, 1.0;
      assert q.strategy == TokenBucket ==> q.rps as real * 1.1 < 2.0 * r.rps as real;
    } else {
      var once, twice := BucketTwice(l, look, e);
      if q.strategy == TokenBucket {
        es, from, to := once, 0.0, 0.0;
      } else {
        es, from, to := twice, 0.0, 1.0;
      }
    }
  }

  /**
    * Two users of one key, whose rules both admit something, are each kept to their own rule in every run
    * exactly when the two rules have the same strategy and the same rate.
    */
  lemma SharedKeyIff(l: Limiter, u: User, v: User)
    requires l.limits == map[] && KeyOf(u) == KeyOf(v)
    requires RuleOf(l, u).rps > 0 && RuleOf(l, u).tpm > 0 && RuleOf(l, v).rps > 0 && RuleOf(l, v).tpm > 0
    ensures KeptToOwnRules(l, u, v) <==> SameRate(RuleOf(l, u), RuleOf(l, v))
  {
    hide Ordered, OnlyUsers, WithinOwnRule, KeyOf, RuleOf;
    if SameRate(RuleOf(l, u), RuleOf(l, v)) {
      forall es, from, to | Ordered(es) && OnlyUsers(es, u, v) && from <= to
        ensures WithinOwnRule(l, es, u, from, to) && WithinOwnRule(l, es, v, from, to)
      {
        SwappedUsers(es, u, v);
        SameRateKeeps(l, u, v, es, from, to);
        SameRateKeeps(l, v, u, es, from, to);
      }
    } else {
      OneExceeds(RuleOf(l, u), RuleOf(l, v));
      if Exceeds(RuleOf(l, u), RuleOf(l, v)) {
        var es, from, to := MakerOverrides(l, u, v);
      } else {
        var es, from, to := MakerOverrides(l, v, u);
      }
    }
  }

  lemma SwappedUsers(es: seq<Event>, u: User, v: User)
    requires KeyOf(u) == KeyOf(v) && OnlyUsers(es, u, v)
    ensures OnlyUsers(es, v, u)
  {
  }

  /** Different users do share keys: wherever the separator falls in a tenant. */
  lemma SplitsShare(a: string, b: string, c: string)
    ensures KeyOf(User(a + "|" + b, c)) == KeyOf(User(a, b + "|" + c)) && User(a + "|" + b, c) != User(a, b + "|" + c)
  {
    assert |a + "|" + b| > |a|;
  }
}
