/**
  * The rate limiter's state and what each call does to it (pkg/plugin/oss/ratelimiter.go, limit_bucket.go,
  * limit_sliding.go). Times are seconds.
  */
module Limits {
  import opened Common

  // ----- Token bucket -----

  datatype Bucket = Bucket(capacity: real, rate: real, tokens: real, last: real)

  function FullBucket(capacity: real, rate: real, now: real): Bucket {
    Bucket(capacity, rate, capacity, now)
  }

  function Min(a: real, b: real): real {
    if a > b then b else a
  }

  function Refill(b: Bucket, now: real): Bucket {
    if now - b.last <= 0.0 then b
    else b.(tokens := Min(b.tokens + (now - b.last) * b.rate, b.capacity), last := now)
  }

  /** Go's conversion of a float to an integer drops the fraction, towards zero. */
  function Truncate(x: real): int {
    if x >= 0.0 then x.Floor else -((-x).Floor)
  }

  function Take(b: Bucket, n: real, now: real): (Bucket, bool) {
    var r := Refill(b, now);
    if r.tokens >= n then (r.(tokens := r.tokens - n), true) else (r, false)
  }

  function Consume(b: Bucket, n: real, now: real): Bucket {
    var r := Refill(b, now);
    r.(tokens := r.tokens - n)
  }

  // ----- Fixed window, called sliding in the source -----

  /** `start` is None while the window start is the zero time. */
  datatype Window = Window(limit: int, length: real, count: int, start: Option<real>)

  function FreshWindow(limit: int, length: real): Window {
    Window(limit, length, 0, None)
  }

  function Roll(w: Window, now: real): Window {
    if w.start.None? || now - w.start.value >= w.length then w.(start := Some(now), count := 0) else w
  }

  function AllowIn(w: Window, n: int, now: real): (Window, bool) {
    var r := Roll(w, now);
    if r.count + n > r.limit then (r, false) else (r.(count := r.count + n), true)
  }

  function AddTo(w: Window, n: int, now: real): Window {
    var r := Roll(w, now);
    r.(count := r.count + n)
  }

  // ----- Rules -----

  datatype Strategy = SlidingWindow | TokenBucket

  datatype Rule = Rule(rps: int, tpm: int, strategy: Strategy)

  datatype Config = Config(tenant: string, model: string, enabled: bool, rule: Rule)

  /** The first enabled configuration for exactly this tenant and model. */
  function Match(configs: seq<Config>, tenant: string, model: string): Option<Rule> {
    if configs == [] then None
    else if configs[0].enabled && configs[0].tenant == tenant && configs[0].model == model then Some(configs[0].rule)
    else Match(configs[1..], tenant, model)
  }

  /** Model level, then tenant level, then global, then the default. */
  function Resolve(configs: seq<Config>, standard: Rule, tenant: string, model: string): Rule {
    var exact := Match(configs, tenant, model);
    var tenantWide := Match(configs, tenant, "");
    var global := Match(configs, "", "");
    if exact.Some? then exact.value
    else if tenantWide.Some? then tenantWide.value
    else if global.Some? then global.value
    else standard
  }

  // ----- The limiter -----

  datatype Limit =
    | Tokens(lastSeen: real, rps: Bucket, tpm: Bucket)
    | Windows(lastSeen: real, rpsWindow: Window, tpmWindow: Window)

  const IDLE_TTL: real := 3600.0

  const SWEEP_EVERY: int := 256

  datatype Limiter = Limiter(configs: seq<Config>, standard: Rule, limits: map<string, Limit>, visits: int)

  function Key(tenant: string, model: string): string {
    tenant + "|" + model
  }

  function NewLimit(rule: Rule, now: real): Limit {
    if rule.strategy == SlidingWindow then
      Windows(now, FreshWindow(rule.rps, 1.0), FreshWindow(rule.tpm, 60.0))
    else
      Tokens(
        now,
        FullBucket(rule.rps as real, rule.rps as real, now), FullBucket(rule.tpm as real, rule.tpm as real / 60.0, now))
  }

  function Swept(limits: map<string, Limit>, now: real): map<string, Limit> {
    map k | k in limits && !(now - limits[k].lastSeen > IDLE_TTL) :: limits[k]
  }

  /** Counting a visit; every 256th drops the idle limits. */
  function Counted(l: Limiter, now: real): Limiter {
    if l.visits + 1 >= SWEEP_EVERY then l.(limits := Swept(l.limits, now), visits := 0)
    else l.(visits := l.visits + 1)
  }

  /** The limit of a key at a visit; a missing one is made anew. */
  function Found(l: Limiter, tenant: string, model: string, now: real): Limit {
    var key := Key(tenant, model);
    if key in l.limits then l.limits[key].(lastSeen := now)
    else NewLimit(Resolve(l.configs, l.standard, tenant, model), now)
  }

  datatype Answer = Answer(limit: Limit, ok: bool, remaining: int)

  function AllowWith(b: Limit, now: real): Answer {
    match b
    case Tokens(seen, rps, tpm) =>
      var tpm1 := Refill(tpm, now);
      if Truncate(tpm1.tokens) <= 0 then Answer(Tokens(seen, rps, tpm1), false, 0)
      else
        var (rps1, ok) := Take(rps, 1.0, now);
        Answer(Tokens(seen, rps1, tpm1), ok, if ok then Truncate(rps1.tokens) else 0)
    case Windows(seen, rps, tpm) =>
      var tpm1 := Roll(tpm, now);
      if tpm1.count >= tpm1.limit then Answer(Windows(seen, rps, tpm1), false, 0)
      else
        var (rps1, ok) := AllowIn(rps, 1, now);
        Answer(Windows(seen, rps1, tpm1), ok, if ok then rps1.limit - rps1.count else 0)
  }

  function RecordWith(b: Limit, tokens: int, now: real): Limit {
    match b
    case Tokens(_, _, tpm) => b.(tpm := Consume(tpm, tokens as real, now))
    case Windows(_, _, tpm) => b.(tpmWindow := AddTo(tpm, tokens, now))
  }

  function PeekWith(b: Limit, now: real): Limit {
    match b
    case Tokens(_, rps, _) => b.(rps := Refill(rps, now))
    case Windows(_, rps, _) => b.(rpsWindow := Roll(rps, now))
  }

  /** What Status reports as used of `rps` requests a second. */
  function Used(b: Limit, rps: int): int {
    match b
    case Windows(_, w, _) => w.count
    case Tokens(_, left, _) => if rps - Truncate(left.tokens) < 0 then 0 else rps - Truncate(left.tokens)
  }

  datatype Op = AllowOp | RecordOp(tokens: int) | StatusOp

  /** One call; all its clock readings are `now`. */
  datatype Event = Event(tenant: string, model: string, op: Op, now: real)

  datatype Outcome = Outcome(l: Limiter, ok: bool, remaining: int)

  /** What a call does once its visit has been counted. */
  function Serve(l: Limiter, e: Event): Outcome {
    var key := Key(e.tenant, e.model);
    var b := Found(l, e.tenant, e.model, e.now);
    match e.op
    case AllowOp =>
      var a := AllowWith(b, e.now);
      Outcome(l.(limits := l.limits[key := a.limit]), a.ok, a.remaining)
    case RecordOp(tokens) => Outcome(l.(limits := l.limits[key := RecordWith(b, tokens, e.now)]), true, 0)
    case StatusOp => Outcome(l.(limits := l.limits[key := PeekWith(b, e.now)]), true, 0)
  }

  /** Recording no tokens does not even count as a visit. */
  predicate Idles(e: Event) {
    e.op.RecordOp? && e.op.tokens <= 0
  }

  function Step(l: Limiter, e: Event): Outcome {
    if Idles(e) then Outcome(l, true, 0) else Serve(Counted(l, e.now), e)
  }

  function Run(l: Limiter, es: seq<Event>): Limiter {
    if es == [] then l else Step(Run(l, es[..|es| - 1]), es[|es| - 1]).l
  }

  function NewLimiter(configs: seq<Config>, standard: Rule): Limiter {
    Limiter(configs, standard, map[], 0)
  }
}
