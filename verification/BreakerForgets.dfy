/** Runs in which the circuit breaker forgets what its thresholds promise: built for every configuration. */
module BreakerForgets {
  import opened Breaker
  import opened BreakerRuns
  import opened FailureWindow

  function At(t: int): Clock {
    Clock(t, t, t, t)
  }

  /** A clock that stands still, then moves on. */
  lemma MonotoneAppend(a: seq<Event>, b: seq<Event>, t: int)
    requires Monotone(a) && Monotone(b)
    requires (forall e :: e in a ==> Ends(e) <= t) && (forall e :: e in b ==> Ends(e) >= t)
    ensures Monotone(a + b)
  {
    var es := a + b;
    forall i, j | 0 <= i < j < |es| ensures Ends(es[i]) <= Ends(es[j]) {
      if i < |a| <= j {
        assert es[i] in a && es[j] in b;
      }
    }
  }

  lemma MonotoneAt(es: seq<Event>, t: int)
    requires forall e :: e in es ==> e.Call? && e.clock == At(t)
    ensures Monotone(es)
  {
    forall i | 0 <= i < |es| ensures es[i].Call? && es[i].clock == At(t) {
      assert es[i] in es;
    }
  }

  /** Failing probes at times 0, d, 2d, ... */
  function Spaced(k: string, n: nat, d: nat): seq<Event> {
    if n == 0 then [] else Spaced(k, n - 1, d) + [Call(k, ProbeOp(false), At((n - 1) * d))]
  }

  /** The failing results that open a breaker. */
  function Threshold(cfg: Config): nat {
    if cfg.failureThreshold < 1 then 1 else cfg.failureThreshold
  }

  lemma {:induction false} SpacedTimes(k: string, n: nat, d: nat)
    ensures |Spaced(k, n, d)| == n
    ensures forall i :: 0 <= i < n ==> Spaced(k, n, d)[i] == Call(k, ProbeOp(false), At(i * d))
  {
    if n > 0 {
      SpacedTimes(k, n - 1, d);
    }
  }

  lemma {:induction false} SpacedCounts(cfg: Config, k: string, n: nat, d: nat)
    requires n <= Threshold(cfg) && (n < SWEEP_EVERY || d <= IDLE_TTL)
    ensures var r := Run(cfg, EmptyRegistry, Spaced(k, n, d));
            && 0 <= r.visits <= n && r.visits < SWEEP_EVERY
            && (0 < n < Threshold(cfg) ==> Is(r, k, Closed) && r.states[k].failures == n)
            && (n == Threshold(cfg) ==> Is(r, k, Open) && r.states[k].openedAt == (n - 1) * d)
            && (n > 0 ==> r.states[k].lastSeen == (n - 1) * d)
            && (n == 0 ==> r == EmptyRegistry)
  {
    if n > 0 {
      SpacedCounts(cfg, k, n - 1, d);
      var before := Spaced(k, n - 1, d);
      RunSnoc(cfg, EmptyRegistry, before, Call(k, ProbeOp(false), At((n - 1) * d)));
      assert n > 1 ==> (n - 2) * d + d == (n - 1) * d;
    }
  }

  lemma {:induction false} SpacedMonotone(k: string, n: nat, d: nat)
    ensures Monotone(Spaced(k, n, d)) && forall e :: e in Spaced(k, n, d) ==> Ends(e) <= n * d
  {
    hide Monotone;
    if n == 0 {
      MonotoneAt([], 0);
    } else {
      var before, e, t := Spaced(k, n - 1, d), Call(k, ProbeOp(false), At((n - 1) * d)), (n - 1) * d;
      SpacedMonotone(k, n - 1, d);
      MonotoneAt([e], t);
      MonotoneAppend(before, [e], t);
      assert n * d == t + d;
    }
  }

  lemma {:induction false} SpacedAtZero(k: string, n: nat)
    ensures forall e :: e in Spaced(k, n, 0) ==> e == Call(k, ProbeOp(false), At(0))
  {
    if n > 0 {
      SpacedAtZero(k, n - 1);
    }
  }

  /**
    * Failing probes any distance apart open the upstream at the threshold, so that no two of them need lie in
    * one sample window; beyond 255 of them they must come within the time to live of each other.
    */
  lemma FarApartFailuresOpen(cfg: Config, k: string, d: nat)
    requires Threshold(cfg) < SWEEP_EVERY || d <= IDLE_TTL
    ensures var es := Spaced(k, Threshold(cfg), d);
            && Monotone(es) && Is(Run(cfg, EmptyRegistry, es), k, Open)
            && forall i :: 0 < i < |es| ==> Ends(es[i]) - Ends(es[i - 1]) == d
  {
    hide Run, Is;
    var n := Threshold(cfg);
    SpacedTimes(k, n, d);
    SpacedMonotone(k, n, d);
    SpacedCounts(cfg, k, n, d);
    forall i | 0 < i < n ensures i * d - (i - 1) * d == d {
    }
  }

  // ----- Filling up to the next sweep -----

  function Repeat(e: Event, n: nat): seq<Event> {
    if n == 0 then [] else Repeat(e, n - 1) + [e]
  }

  lemma {:induction false} RepeatTimes(e: Event, n: nat)
    ensures |Repeat(e, n)| == n && forall x :: x in Repeat(e, n) ==> x == e
  {
    if n > 0 {
      RepeatTimes(e, n - 1);
    }
  }

  /** Calls for another upstream, short of the next sweep, leave `k` alone. */
  lemma {:induction false} FillerKeeps(cfg: Config, r: Registry, k: string, e: Event, n: nat)
    requires e.Call? && e.id != k && k in r.states && 0 <= r.visits && r.visits + n < SWEEP_EVERY
    ensures var r' := Run(cfg, r, Repeat(e, n));
            r'.visits == r.visits + n && k in r'.states && r'.states[k] == r.states[k]
  {
    if n > 0 {
      FillerKeeps(cfg, r, k, e, n - 1);
      RunSnoc(cfg, r, Repeat(e, n - 1), e);
    }
  }

  /** Another upstream's name. */
  function Other(k: string): string {
    k + "'"
  }

  /** Calls for another upstream up to one short of the next sweep. */
  function Filler(r: Registry, k: string, t: int): seq<Event> {
    if 0 <= r.visits < SWEEP_EVERY then Repeat(Call(Other(k), SelectableOp, At(t)), SWEEP_EVERY - 1 - r.visits) else []
  }

  lemma FilledUp(cfg: Config, r: Registry, k: string, t: int)
    requires k in r.states && 0 <= r.visits < SWEEP_EVERY
    ensures var r' := Run(cfg, r, Filler(r, k, t));
            r'.visits == SWEEP_EVERY - 1 && k in r'.states && r'.states[k] == r.states[k]
    ensures forall e :: e in Filler(r, k, t) ==> e.Call? && e.clock == At(t)
    ensures Monotone(Filler(r, k, t))
  {
    hide Run, Repeat;
    var e, n := Call(Other(k), SelectableOp, At(t)), SWEEP_EVERY - 1 - r.visits;
    FillerKeeps(cfg, r, k, e, n);
    RepeatTimes(e, n);
    MonotoneAt(Filler(r, k, t), t);
  }

  // ----- An open upstream forgotten -----

  /** A granted Allow for an upstream that opened less than OpenFor before, in a run with a clock that never goes back. */
  ghost predicate AllowedEarly(cfg: Config, es: seq<Event>, i: nat, j: nat, k: string) {
    && Monotone(es) && i < j < |es| && Opens(cfg, Run(cfg, EmptyRegistry, es[..i]), es[i], k)
    && es[j].Call? && es[j].id == k && es[j].op == AllowOp && es[j].clock.now < Ends(es[i]) + cfg.openFor
    && Step(cfg, Run(cfg, EmptyRegistry, es[..j]), es[j]).ok
  }

  /** Enough failing probes, all at time zero. */
  function Opening(cfg: Config, k: string): seq<Event> {
    Spaced(k, Threshold(cfg), 0)
  }

  lemma LastOpens(k: string, n: nat)
    requires n > 0
    ensures var e := Call(k, ProbeOp(false), At(0));
            var es := Spaced(k, n, 0);
            |es| > 0 && es == Spaced(k, n - 1, 0) + [e] && es[..|es| - 1] == Spaced(k, n - 1, 0) && es[|es| - 1] == e
  {
    assert (n - 1) * 0 == 0;
  }

  lemma OpenedAtZero(cfg: Config, k: string)
    ensures var es, r := Opening(cfg, k), Run(cfg, EmptyRegistry, Opening(cfg, k));
            && Is(r, k, Open) && r.states[k].openedAt == r.states[k].lastSeen == 0 && 0 <= r.visits < SWEEP_EVERY
            && |es| == Threshold(cfg) && Monotone(es) && (forall e :: e in es ==> Ends(e) == 0)
            && Opens(cfg, Run(cfg, EmptyRegistry, es[..|es| - 1]), es[|es| - 1], k)
  {
    hide Run, Monotone;
    var n := Threshold(cfg);
    var e := Call(k, ProbeOp(false), At(0));
    var before := Run(cfg, EmptyRegistry, Spaced(k, n - 1, 0));
    SpacedCounts(cfg, k, n, 0);
    SpacedCounts(cfg, k, n - 1, 0);
    SpacedAtZero(k, n);
    SpacedTimes(k, n, 0);
    SpacedMonotone(k, n, 0);
    RunSnoc(cfg, EmptyRegistry, Spaced(k, n - 1, 0), e);
    LastOpens(k, n);
  }

  /** With OpenFor past the time to live: opened, only asked for elsewhere until the sweep, and let through early. */
  lemma OpenForgotten(cfg: Config, k: string) returns (es: seq<Event>, i: nat, j: nat)
    requires cfg.openFor > IDLE_TTL + 1
    ensures AllowedEarly(cfg, es, i, j, k)
  {
    hide Run, Opening, Filler, Monotone, Opens, Is;
    OpenedAtZero(cfg, k);
    var a, t := Opening(cfg, k), IDLE_TTL + 1;
    var r := Run(cfg, EmptyRegistry, a);
    assert k in r.states by { InStates(r, k, Open); }
    var b, e := Filler(r, k, 0), Call(k, AllowOp, At(t));
    FilledUp(cfg, r, k, 0);
    MonotoneAppend(a, b, 0);
    MonotoneAt([e], t);
    MonotoneAppend(a + b, [e], t);
    RunAppend(cfg, EmptyRegistry, a, b);
    es, i, j := a + b + [e], |a| - 1, |a + b|;
    assert es[..i] == a[..|a| - 1] && es[i] == a[|a| - 1] && es[..j] == a + b;
    ForgottenAllows(cfg, Run(cfg, EmptyRegistry, a + b), k, t);
    assert a[|a| - 1] in a;
  }

  lemma InStates(r: Registry, k: string, s: State)
    requires Is(r, k, s)
    ensures k in r.states && r.states[k].state == s
  {
  }

  /** The sweep of an Allow drops what was last seen more than the time to live ago, and the Allow is granted. */
  lemma ForgottenAllows(cfg: Config, r: Registry, k: string, t: int)
    requires k in r.states && r.visits == SWEEP_EVERY - 1 && r.states[k].lastSeen < t - IDLE_TTL
    ensures var e := Call(k, AllowOp, At(t));
            Evicts(r, e, k) && Step(cfg, r, e).ok && Is(Step(cfg, r, e).reg, k, Closed)
  {
    StepOn(cfg, r, Call(k, AllowOp, At(t)), k);
  }

  /**
    * Over all runs: an upstream is never let through before OpenFor has passed since it opened exactly when
    * the time to live covers OpenFor, to the nanosecond.
    */
  lemma NeverEarlyIffTtlCovers(cfg: Config)
    ensures (forall es, i, j, k :: !AllowedEarly(cfg, es, i, j, k)) <==> cfg.openFor <= IDLE_TTL + 1
  {
    hide Step, Opens, Monotone, Run;
    if cfg.openFor <= IDLE_TTL + 1 {
      forall es, i, j, k ensures !AllowedEarly(cfg, es, i, j, k) {
        if AllowedEarly(cfg, es, i, j, k) {
          NoAllowWhileOpen(cfg, es, i, j, k);
        }
      }
    } else {
      var es, i, j := OpenForgotten(cfg, "");
    }
  }

  // ----- A half-open upstream forgotten -----

  lemma SlotTaken(cfg: Config, r: Registry, k: string, t: int)
    requires Is(r, k, HalfOpen) && r.states[k].inFlight < cfg.probeConcurrency && r.states[k].lastSeen == t
    requires 0 <= r.visits < SWEEP_EVERY
    ensures var r' := Step(cfg, r, Call(k, AllowOp, At(t))).reg;
            && Is(r', k, HalfOpen) && r'.states[k].inFlight == r.states[k].inFlight + 1
            && r'.states[k].lastSeen == t && 0 <= r'.visits < SWEEP_EVERY
  {
    StepOn(cfg, r, Call(k, AllowOp, At(t)), k);
  }

  lemma {:induction false} ProbesTakeSlots(cfg: Config, r: Registry, k: string, t: int, n: nat)
    requires Is(r, k, HalfOpen) && r.states[k].inFlight == 0 && r.states[k].lastSeen == t
    requires 0 <= r.visits < SWEEP_EVERY && n <= cfg.probeConcurrency
    ensures var r' := Run(cfg, r, Repeat(Call(k, AllowOp, At(t)), n));
            && Is(r', k, HalfOpen) && r'.states[k].inFlight == n && r'.states[k].lastSeen == t
            && 0 <= r'.visits < SWEEP_EVERY
  {
    hide Step, Evicts;
    if n > 0 {
      var e := Call(k, AllowOp, At(t));
      ProbesTakeSlots(cfg, r, k, t, n - 1);
      RunSnoc(cfg, r, Repeat(e, n - 1), e);
      SlotTaken(cfg, Run(cfg, r, Repeat(e, n - 1)), k, t);
    }
  }

  /** One more call elsewhere if the next one would sweep; at time zero it drops nothing of `k`. */
  function Pad(r: Registry, k: string): seq<Event> {
    if r.visits == SWEEP_EVERY - 1 then [Call(Other(k), SelectableOp, At(0))] else []
  }

  lemma Padded(cfg: Config, r: Registry, k: string)
    requires k in r.states && 0 <= r.visits < SWEEP_EVERY && r.states[k].lastSeen == 0
    ensures var r' := Run(cfg, r, Pad(r, k));
            0 <= r'.visits < SWEEP_EVERY - 1 && k in r'.states && r'.states[k] == r.states[k]
    ensures Monotone(Pad(r, k)) && forall e :: e in Pad(r, k) ==> Ends(e) == 0 && !IsTraffic(e, k, true)
  {
    if r.visits == SWEEP_EVERY - 1 {
      var e := Call(Other(k), SelectableOp, At(0));
      assert Pad(r, k)[..0] == [];
      StepOn(cfg, r, e, k);
    }
  }

  /** A due successful probe makes an open upstream half-open, with no slot taken. */
  lemma ProbeHalfOpens(cfg: Config, r: Registry, k: string, t: int)
    requires Is(r, k, Open) && r.states[k].openedAt == 0 && t >= cfg.openFor && 0 <= r.visits < SWEEP_EVERY - 1
    ensures var r' := Run(cfg, r, [Call(k, ProbeOp(true), At(t))]);
            && Is(r', k, HalfOpen) && r'.states[k].inFlight == 0 && r'.states[k].lastSeen == t
            && 0 <= r'.visits < SWEEP_EVERY
  {
    var e := Call(k, ProbeOp(true), At(t));
    assert [e][..0] == [];
    StepOn(cfg, r, e, k);
  }

  /** The run up to the moment all probe slots are taken and the next visit is the sweep's. */
  lemma {:induction false} SlotsFull(cfg: Config, k: string) returns (es: seq<Event>, t: nat)
    requires cfg.probeConcurrency >= 1
    ensures Monotone(es) && (forall e :: e in es ==> Ends(e) <= t && !IsTraffic(e, k, true))
    ensures var r := Run(cfg, EmptyRegistry, es);
            && Is(r, k, HalfOpen) && r.states[k].inFlight == cfg.probeConcurrency && r.states[k].lastSeen == t
            && r.visits == SWEEP_EVERY - 1
  {
    hide Run, Step, Opening, Filler, Pad, Monotone, Opens, Repeat;
    t := if cfg.openFor > 0 then cfg.openFor else 0;
    var a := Opening(cfg, k);
    OpenedAtZero(cfg, k);
    OpeningFails(cfg, k);
    var r1 := Run(cfg, EmptyRegistry, a);
    var b := Pad(r1, k);
    Padded(cfg, r1, k);
    var r2, c := Run(cfg, r1, b), [Call(k, ProbeOp(true), At(t))];
    ProbeHalfOpens(cfg, r2, k, t);
    var r3, n := Run(cfg, r2, c), cfg.probeConcurrency;
    var allow := Call(k, AllowOp, At(t));
    var d := Repeat(allow, n);
    ProbesTakeSlots(cfg, r3, k, t, n);
    RepeatTimes(allow, n);
    var r4 := Run(cfg, r3, d);
    var f := Filler(r4, k, t);
    FilledUp(cfg, r4, k, t);
    FillerIsQuiet(r4, k, t);
    RunAppend(cfg, EmptyRegistry, a, b);
    RunAppend(cfg, EmptyRegistry, a + b, c);
    RunAppend(cfg, EmptyRegistry, a + b + c, d);
    RunAppend(cfg, EmptyRegistry, a + b + c + d, f);
    MonotoneAppend(a, b, 0);
    MonotoneAt(c, t);
    MonotoneAppend(a + b, c, t);
    MonotoneAt(d, t);
    MonotoneAppend(a + b + c, d, t);
    MonotoneAppend(a + b + c + d, f, t);
    es := a + b + c + d + f;
  }

  lemma OpeningFails(cfg: Config, k: string)
    ensures forall e :: e in Opening(cfg, k) ==> !IsTraffic(e, k, true)
  {
    SpacedTimes(k, Threshold(cfg), 0);
  }

  lemma FillerIsQuiet(r: Registry, k: string, t: int)
    ensures forall e :: e in Filler(r, k, t) ==> !IsTraffic(e, k, true)
  {
    if 0 <= r.visits < SWEEP_EVERY {
      RepeatTimes(Call(Other(k), SelectableOp, At(t)), SWEEP_EVERY - 1 - r.visits);
    }
  }

  /**
    * For every configuration there is a run in which a half-open upstream with all its probe slots taken is
    * forgotten at the 256th visit, without one successful result of real traffic, and the Allow that makes
    * the visit is granted past the probe limit.
    */
  lemma HalfOpenForgotten(cfg: Config, k: string) returns (es: seq<Event>, e: Event)
    requires cfg.probeConcurrency >= 1
    ensures Monotone(es + [e]) && e.Call? && e.id == k && e.op == AllowOp && e.clock.sweep == e.clock.now
    ensures forall x :: x in es ==> !IsTraffic(x, k, true)
    ensures var r := Run(cfg, EmptyRegistry, es);
            && Is(r, k, HalfOpen) && r.states[k].inFlight == cfg.probeConcurrency && r.visits == SWEEP_EVERY - 1
            && Step(cfg, r, e).ok && Is(Step(cfg, r, e).reg, k, Closed)
  {
    hide Run, Monotone;
    var t;
    es, t := SlotsFull(cfg, k);
    var now := t + IDLE_TTL + 1;
    e := Call(k, AllowOp, At(now));
    MonotoneAt([e], now);
    MonotoneAppend(es, [e], now);
    ForgottenAllows(cfg, Run(cfg, EmptyRegistry, es), k, now);
  }
}
