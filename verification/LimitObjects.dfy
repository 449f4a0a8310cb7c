/** The rate limiter's objects, updated in place under its lock. */
module LimitObjects {
  import opened Common
  import opened Limits

  /** One token bucket; `key` and `spare` tell the buckets of a limiter apart. */
  class TokenBucketCell {
    ghost const key: string
    ghost const spare: bool
    const capacity: real
    const refillPerSec: real
    var tokens: real
    var last: real

    function View(): Bucket
      reads this
    {
      Bucket(capacity, refillPerSec, tokens, last)
    }

    constructor (capacity: real, refillPerSec: real, now: real, ghost key: string, ghost spare: bool)
      ensures View() == FullBucket(capacity, refillPerSec, now) && this.key == key && this.spare == spare
    {
      this.capacity, this.refillPerSec, tokens, last := capacity, refillPerSec, capacity, now;
      this.key, this.spare := key, spare;
    }

    method RefillNow(now: real)
      modifies this
      ensures View() == Refill(old(View()), now)
    {
      var elapsed := now - last;
      if elapsed <= 0.0 {
        return;
      }
      tokens := tokens + elapsed * refillPerSec;
      if tokens > capacity {
        tokens := capacity;
      }
      last := now;
    }

    method TakeNow(n: real, now: real) returns (ok: bool)
      modifies this
      ensures (View(), ok) == Take(old(View()), n, now)
    {
      RefillNow(now);
      if tokens >= n {
        tokens := tokens - n;
        return true;
      }
      return false;
    }

    method ConsumeNow(n: real, now: real)
      modifies this
      ensures View() == Consume(old(View()), n, now)
    {
      RefillNow(now);
      tokens := tokens - n;
    }

    method Remaining(now: real) returns (r: int)
      modifies this
      ensures View() == Refill(old(View()), now) && r == Truncate(View().tokens)
    {
      RefillNow(now);
      r := Truncate(tokens);
    }
  }

  class WindowCell {
    ghost const key: string
    ghost const spare: bool
    const limit: int
    const window: real
    var count: int
    var windowStart: Option<real>

    function View(): Window
      reads this
    {
      Window(limit, window, count, windowStart)
    }

    constructor (limit: int, window: real, ghost key: string, ghost spare: bool)
      ensures View() == FreshWindow(limit, window) && this.key == key && this.spare == spare
    {
      this.limit, this.window, count, windowStart := limit, window, 0, None;
      this.key, this.spare := key, spare;
    }

    method RollNow(now: real)
      modifies this
      ensures View() == Roll(old(View()), now)
    {
      if windowStart.None? || now - windowStart.value >= window {
        windowStart := Some(now);
        count := 0;
      }
    }

    method AllowNow(n: int, now: real) returns (ok: bool)
      modifies this
      ensures (View(), ok) == AllowIn(old(View()), n, now)
    {
      RollNow(now);
      if count + n > limit {
        return false;
      }
      count := count + n;
      return true;
    }

    method AddNow(n: int, now: real)
      modifies this
      ensures View() == AddTo(old(View()), n, now)
    {
      RollNow(now);
      count := count + n;
    }

    method Current(now: real) returns (r: int)
      modifies this
      ensures View() == Roll(old(View()), now) && r == View().count
    {
      RollNow(now);
      r := count;
    }
  }

  datatype Cells =
    | TokenCells(lastSeen: real, rps: TokenBucketCell, tpm: TokenBucketCell)
    | WindowCells(lastSeen: real, rpsWindow: WindowCell, tpmWindow: WindowCell)
  {
    function Objects(): set<object> {
      match this
      case TokenCells(_, rps, tpm) => {rps, tpm}
      case WindowCells(_, rps, tpm) => {rps, tpm}
    }

    function View(): Limit
      reads Objects()
    {
      match this
      case TokenCells(seen, rps, tpm) => Tokens(seen, rps.View(), tpm.View())
      case WindowCells(seen, rps, tpm) => Windows(seen, rps.View(), tpm.View())
    }

    /** The two cells belong to this key and to different dimensions. */
    ghost predicate Owned(key: string) {
      match this
      case TokenCells(_, rps, tpm) => rps.key == key && tpm.key == key && !rps.spare && tpm.spare
      case WindowCells(_, rps, tpm) => rps.key == key && tpm.key == key && !rps.spare && tpm.spare && rps.window > 0.0
    }
  }

  /** One limit's cells as the calls use them. */
  method AllowCells(b: Cells, ghost key: string, now: real) returns (ok: bool, remaining: int)
    requires b.Owned(key)
    modifies b.Objects()
    ensures Answer(b.View(), ok, remaining) == AllowWith(old(b.View()), now)
  {
    if b.WindowCells? {
      var used := b.tpmWindow.Current(now);
      if used >= b.tpmWindow.limit {
        return false, 0;
      }
      ok := b.rpsWindow.AllowNow(1, now);
      if !ok {
        return false, 0;
      }
      var current := b.rpsWindow.Current(now);
      return true, b.rpsWindow.limit - current;
    }
    var left := b.tpm.Remaining(now);
    if left <= 0 {
      return false, 0;
    }
    ok := b.rps.TakeNow(1.0, now);
    if !ok {
      return false, 0;
    }
    remaining := b.rps.Remaining(now);
  }

  method RecordCells(b: Cells, ghost key: string, tokens: int, now: real)
    requires b.Owned(key)
    modifies b.Objects()
    ensures b.View() == RecordWith(old(b.View()), tokens, now)
  {
    if b.WindowCells? {
      b.tpmWindow.AddNow(tokens, now);
    } else {
      b.tpm.ConsumeNow(tokens as real, now);
    }
  }

  /** The part of Status that reads the request dimension: what is used of `rps`. */
  method PeekCells(b: Cells, ghost key: string, rps: int, now: real) returns (used: int)
    requires b.Owned(key)
    modifies b.Objects()
    ensures b.View() == PeekWith(old(b.View()), now)
    ensures used == Used(b.View(), rps)
  {
    if b.WindowCells? {
      used := b.rpsWindow.Current(now);
      return;
    }
    var left := b.rps.Remaining(now);
    used := rps - left;
    if used < 0 {
      used := 0;
    }
  }

  /** The limiter after a visit: the limit of the key is in place. */
  function Visited(l: Limiter, tenant: string, model: string, now: real): (l': Limiter)
    ensures Key(tenant, model) in l'.limits
  {
    var counted := Counted(l, now);
    counted.(limits := counted.limits[Key(tenant, model) := Found(counted, tenant, model, now)])
  }

  /** A call puts the limit in place and then replaces it. */
  lemma StepOnVisited(l: Limiter, e: Event)
    requires !Idles(e)
    ensures var v := Visited(l, e.tenant, e.model, e.now);
            var key := Key(e.tenant, e.model);
            match e.op
            case AllowOp =>
              var a := AllowWith(v.limits[key], e.now);
              Step(l, e) == Outcome(v.(limits := v.limits[key := a.limit]), a.ok, a.remaining)
            case RecordOp(n) => Step(l, e).l == v.(limits := v.limits[key := RecordWith(v.limits[key], n, e.now)])
            case StatusOp => Step(l, e).l == v.(limits := v.limits[key := PeekWith(v.limits[key], e.now)])
  {
    hide Counted, Found, AllowWith, RecordWith, PeekWith, Key;
    var key := Key(e.tenant, e.model);
    assert Step(l, e).l.limits == Visited(l, e.tenant, e.model, e.now).limits[key := Step(l, e).l.limits[key]];
  }

  class RateLimiter {
    const standard: Rule
    var configs: seq<Config>
    var buckets: map<string, Cells>
    var visits: int
    ghost var repr: set<object>

    ghost predicate Valid()
      reads this
    {
      forall k :: k in buckets ==> buckets[k].Owned(k) && buckets[k].Objects() <= repr
    }

    ghost function Limits(): map<string, Limit>
      requires Valid()
      reads this, repr
    {
      map k | k in buckets :: buckets[k].View()
    }

    ghost function View(): Limiter
      requires Valid()
      reads this, repr
    {
      Limiter(configs, standard, Limits(), visits)
    }

    constructor (configs: seq<Config>, standard: Rule)
      ensures Valid() && View() == NewLimiter(configs, standard) && repr == {}
    {
      this.configs, this.standard := configs, standard;
      buckets, visits := map[], 0;
      repr := {};
    }

    /** Swaps the configurations only: existing limits keep the thresholds they were made with. */
    method ReloadConfig(all: seq<Config>)
      requires Valid()
      modifies this`configs
      ensures Valid() && View() == old(View()).(configs := all)
    {
      configs := all;
    }

    method Find(tenant: string, model: string) returns (r: Option<Rule>)
      ensures r == Match(configs, tenant, model)
    {
      var i := 0;
      while i < |configs|
        invariant 0 <= i <= |configs| && Match(configs[i..], tenant, model) == Match(configs, tenant, model)
      {
        var c := configs[i];
        assert configs[i..][1..] == configs[i + 1..];
        if c.enabled && c.tenant == tenant && c.model == model {
          return Some(c.rule);
        }
        i := i + 1;
      }
      return None;
    }

    method ResolveRule(tenant: string, model: string) returns (r: Rule)
      ensures r == Resolve(configs, standard, tenant, model)
    {
      var c := Find(tenant, model);
      if c.Some? {
        return c.value;
      }
      c := Find(tenant, "");
      if c.Some? {
        return c.value;
      }
      c := Find("", "");
      if c.Some? {
        return c.value;
      }
      return standard;
    }

    method DropIdle(now: real)
      modifies this`buckets
      ensures buckets ==
        map k | k in old(buckets) && !(now - old(buckets)[k].lastSeen > IDLE_TTL) :: old(buckets)[k]
    {
      ghost var all := buckets;
      var keys := buckets.Keys;
      while keys != {}
        invariant keys <= all.Keys
        invariant buckets == map k | k in all && (k in keys || !(now - all[k].lastSeen > IDLE_TTL)) :: all[k]
      {
        var k :| k in keys;
        if now - buckets[k].lastSeen > 3600.0 {
          buckets := buckets - {k};
        }
        keys := keys - {k};
      }
    }

    method SweepIdle(now: real)
      requires Valid()
      modifies this`buckets
      ensures Valid() && Limits() == Swept(old(Limits()), now)
    {
      ghost var before := Limits();
      DropIdle(now);
      assert Limits() == Swept(before, now);
    }

    method CountVisit(now: real)
      requires Valid()
      modifies this`buckets, this`visits
      ensures Valid() && View() == Counted(old(View()), now)
    {
      hide Swept;
      visits := visits + 1;
      assert Limits() == old(Limits());
      if visits >= 256 {
        visits := 0;
        assert Limits() == old(Limits());
        SweepIdle(now);
      }
    }

    /** Makes the cells of a rule. */
    method Create(rule: Rule, ghost key: string, now: real) returns (b: Cells)
      ensures b.Owned(key) && b.View() == NewLimit(rule, now) && fresh(b.Objects())
    {
      if rule.strategy == SlidingWindow {
        var rps := new WindowCell(rule.rps, 1.0, key, false);
        var tpm := new WindowCell(rule.tpm, 60.0, key, true);
        b := WindowCells(now, rps, tpm);
      } else {
        var rps := new TokenBucketCell(rule.rps as real, rule.rps as real, now, key, false);
        var tpm := new TokenBucketCell(rule.tpm as real, rule.tpm as real / 60.0, now, key, true);
        b := TokenCells(now, rps, tpm);
      }
    }

    /** Puts the cells of a key in place. */
    method Put(key: string, b: Cells)
      requires Valid() && b.Owned(key)
      modifies this`buckets, this`repr
      ensures Valid() && repr == old(repr) + b.Objects() && buckets == old(buckets)[key := b]
      ensures Limits() == old(Limits())[key := b.View()]
    {
      buckets := buckets[key := b];
      repr := repr + b.Objects();
    }

    method BucketFor(tenant: string, model: string, now: real) returns (b: Cells)
      requires Valid()
      modifies this`buckets, this`visits, this`repr
      ensures Valid() && View() == Visited(old(View()), tenant, model, now)
      ensures Key(tenant, model) in buckets && buckets[Key(tenant, model)] == b
      ensures fresh(repr - old(repr))
    {
      hide Counted, NewLimit, Resolve, Key;
      CountVisit(now);
      var key := Key(tenant, model);
      if key in buckets {
        b := buckets[key].(lastSeen := now);
        assert b.View() == Limits()[key].(lastSeen := now);
      } else {
        var rule := ResolveRule(tenant, model);
        b := Create(rule, key, now);
      }
      Put(key, b);
    }

    /** The decision on the cells of a key: no other limit changes. */
    method Decide(key: string, now: real) returns (ok: bool, remaining: int)
      requires Valid() && key in buckets
      modifies buckets[key].Objects()
      ensures Valid() && Answer(Limits()[key], ok, remaining) == AllowWith(old(Limits())[key], now)
      ensures Limits() == old(Limits())[key := Limits()[key]]
    {
      hide AllowWith;
      ok, remaining := AllowCells(buckets[key], key, now);
    }

    method Charge(key: string, tokens: int, now: real)
      requires Valid() && key in buckets
      modifies buckets[key].Objects()
      ensures Valid() && Limits() == old(Limits())[key := RecordWith(old(Limits())[key], tokens, now)]
    {
      hide RecordWith;
      RecordCells(buckets[key], key, tokens, now);
    }

    method Peek(key: string, rps: int, now: real) returns (used: int)
      requires Valid() && key in buckets
      modifies buckets[key].Objects()
      ensures Valid() && Limits() == old(Limits())[key := PeekWith(old(Limits())[key], now)]
      ensures used == Used(Limits()[key], rps)
    {
      hide PeekWith;
      used := PeekCells(buckets[key], key, rps, now);
    }

    method Allow(tenant: string, model: string, now: real) returns (ok: bool, remaining: int)
      requires Valid()
      modifies this`buckets, this`visits, this`repr, repr
      ensures Valid() && Outcome(View(), ok, remaining) == Step(old(View()), Event(tenant, model, AllowOp, now))
      ensures fresh(repr - old(repr))
    {
      hide Visited, Step, AllowWith, Key;
      StepOnVisited(View(), Event(tenant, model, AllowOp, now));
      var b := BucketFor(tenant, model, now);
      ok, remaining := Decide(Key(tenant, model), now);
    }

    method RecordTokens(tenant: string, model: string, tokens: int, now: real)
      requires Valid()
      modifies this`buckets, this`visits, this`repr, repr
      ensures Valid() && View() == Step(old(View()), Event(tenant, model, RecordOp(tokens), now)).l
      ensures fresh(repr - old(repr))
    {
      hide Visited, Serve, RecordWith, Key;
      if tokens <= 0 {
        return;
      }
      StepOnVisited(View(), Event(tenant, model, RecordOp(tokens), now));
      var b := BucketFor(tenant, model, now);
      Charge(Key(tenant, model), tokens, now);
    }

    method Status(tenant: string, model: string, now: real) returns (used: int, limit: int, resetAt: real)
      requires Valid()
      modifies this`buckets, this`visits, this`repr, repr
      ensures Valid() && View() == Step(old(View()), Event(tenant, model, StatusOp, now)).l
      ensures fresh(repr - old(repr))
      ensures limit == Resolve(old(configs), standard, tenant, model).rps && resetAt == now + 1.0
      ensures Key(tenant, model) in Limits() && used == Used(Limits()[Key(tenant, model)], limit)
    {
      hide Visited, Step, PeekWith, Key, Resolve, Used;
      StepOnVisited(View(), Event(tenant, model, StatusOp, now));
      var b := BucketFor(tenant, model, now);
      var rule := ResolveRule(tenant, model);
      used := Peek(Key(tenant, model), rule.rps, now);
      limit, resetAt := rule.rps, now + 1.0;
    }

    method Reset(tenant: string, model: string)
      requires Valid()
      modifies this`buckets
      ensures Valid() && View() == old(View()).(limits := old(View()).limits - {Key(tenant, model)})
    {
      ghost var before := Limits();
      buckets := buckets - {Key(tenant, model)};
      assert Limits() == before - {Key(tenant, model)};
    }
  }
}
