/** One upstream's circuit breaker and the registry of all of them (pkg/core/breaker.go). Times are nanoseconds. */
module Breaker {

  datatype State = Closed | Open | HalfOpen

  datatype Config = Config(
    failureThreshold: int, sampleWindow: int, openFor: int, successThreshold: int, probeConcurrency: int)

  /** NewBreakerConfig: a probe limit that is not positive becomes one. */
  function NewConfig(threshold: int, window: int, openFor: int, succ: int, probe: int): (c: Config)
    ensures c.probeConcurrency >= 1
  {
    Config(threshold, window, openFor, succ, if probe <= 0 then 1 else probe)
  }

  datatype Entry = Entry(
    state: State, failures: int, winStart: int, openedAt: int, successes: int, inFlight: int, lastSeen: int)

  function NewEntry(winStart: int, lastSeen: int): Entry {
    Entry(Closed, 0, winStart, 0, 0, 0, lastSeen)
  }

  datatype Answer = Answer(b: Entry, ok: bool)

  /** Restarts the failure window of a closed breaker once it has run out. */
  function Roll(cfg: Config, b: Entry, now: int): Entry {
    if now - b.winStart > cfg.sampleWindow then b.(failures := 0, winStart := now) else b
  }

  function EnterHalfOpen(b: Entry): Entry {
    b.(state := HalfOpen, successes := 0, inFlight := 0)
  }

  function TakeSlot(cfg: Config, b: Entry): Answer {
    if b.inFlight < cfg.probeConcurrency then Answer(b.(inFlight := b.inFlight + 1), true) else Answer(b, false)
  }

  function Allow(cfg: Config, b: Entry, now: int): Answer {
    match b.state
    case Closed => Answer(Roll(cfg, b, now), true)
    case Open =>
      if now - b.openedAt >= cfg.openFor then TakeSlot(cfg, EnterHalfOpen(b)) else Answer(b, false)
    case HalfOpen => TakeSlot(cfg, b)
  }

  function Selectable(cfg: Config, b: Entry, now: int): Answer {
    match b.state
    case Closed => Answer(Roll(cfg, b, now), true)
    case Open => if now - b.openedAt >= cfg.openFor then Answer(EnterHalfOpen(b), true) else Answer(b, false)
    case HalfOpen => Answer(b, true)
  }

  function Release(b: Entry): Entry {
    if b.state == HalfOpen && b.inFlight > 0 then b.(inFlight := b.inFlight - 1) else b
  }

  /** A result seen while closed. */
  function Count(cfg: Config, b: Entry, ok: bool, now: int): Entry {
    if ok then b.(failures := 0, winStart := now)
    else
      var counted := b.(failures := b.failures + 1, winStart := now);
      if counted.failures >= cfg.failureThreshold then counted.(state := Open, openedAt := now) else counted
  }

  function Record(cfg: Config, b0: Entry, ok: bool, now: int): Entry {
    var b := b0.(lastSeen := now);
    match b.state
    case Open => b
    case Closed => Count(cfg, b, ok, now)
    case HalfOpen =>
      var freed := b.(inFlight := b.inFlight - 1);
      if !ok then freed.(failures := 0, winStart := now, state := Open, openedAt := now)
      else if freed.successes + 1 >= cfg.successThreshold then Entry(Closed, 0, now, now, 0, 0, now)
      else freed.(successes := freed.successes + 1)
  }

  function RecordProbe(cfg: Config, b0: Entry, ok: bool, now: int): Entry {
    var b := b0.(lastSeen := now);
    match b.state
    case HalfOpen => b
    case Open => if ok && now - b.openedAt >= cfg.openFor then EnterHalfOpen(b) else b
    case Closed => Count(cfg, b, ok, now)
  }

  // ----- The registry -----

  const IDLE_TTL: int := 3_600_000_000_000

  const SWEEP_EVERY: int := 256

  datatype Registry = Registry(states: map<string, Entry>, visits: int)

  const EmptyRegistry := Registry(map[], 0)

  /**
    * The clock readings of one registry call, in the order they are taken: the sweep's, the two that
    * stamp a new entry, and the operation's own.
    */
  datatype Clock = Clock(sweep: int, winStart: int, seen: int, now: int)

  predicate Forward(c: Clock) {
    c.sweep <= c.winStart <= c.seen <= c.now
  }

  function Swept(states: map<string, Entry>, cut: int): map<string, Entry> {
    map k | k in states && !(states[k].lastSeen < cut) :: states[k]
  }

  /** Finding the entry of `id`: every 256th visit drops idle entries first; a missing entry is created. */
  function Visit(r: Registry, id: string, c: Clock): (r': Registry)
    ensures id in r'.states
  {
    var due := r.visits + 1 >= SWEEP_EVERY;
    var kept := if due then Swept(r.states, c.sweep - IDLE_TTL) else r.states;
    Registry(
      if id in kept then kept else kept[id := NewEntry(c.winStart, c.seen)],
      if due then 0 else r.visits + 1)
  }

  datatype Op = AllowOp | SelectableOp | RecordOp(ok: bool) | ProbeOp(ok: bool) | ReleaseOp

  datatype Event = Call(id: string, op: Op, clock: Clock) | SweepAll(now: int)

  datatype Outcome = Outcome(reg: Registry, ok: bool)

  function Apply(cfg: Config, b: Entry, op: Op, now: int): Answer {
    match op
    case AllowOp => Allow(cfg, b, now)
    case SelectableOp => Selectable(cfg, b, now)
    case RecordOp(ok) => Answer(Record(cfg, b, ok, now), true)
    case ProbeOp(ok) => Answer(RecordProbe(cfg, b, ok, now), true)
    case ReleaseOp => Answer(Release(b), true)
  }

  function Step(cfg: Config, r: Registry, e: Event): Outcome {
    match e
    case SweepAll(now) => Outcome(r.(states := Swept(r.states, now - IDLE_TTL)), true)
    case Call(id, op, c) =>
      var visited := Visit(r, id, c);
      var a := Apply(cfg, visited.states[id], op, c.now);
      Outcome(visited.(states := visited.states[id := a.b]), a.ok)
  }

  /** The registry after a run of events. */
  function Run(cfg: Config, r: Registry, es: seq<Event>): Registry {
    if es == [] then r else Step(cfg, Run(cfg, r, es[..|es| - 1]), es[|es| - 1]).reg
  }

  lemma {:induction false} RunSnoc(cfg: Config, r: Registry, es: seq<Event>, e: Event)
    ensures Run(cfg, r, es + [e]) == Step(cfg, Run(cfg, r, es), e).reg
  {
    assert (es + [e])[..|es|] == es;
  }

  // ----- The objects -----

  /** One upstream's state machine, updated in place. */
  class UpstreamBreaker {
    const cfg: Config
    var state: State
    var failures: int
    var winStart: int
    var openedAt: int
    var successes: int
    var inFlight: int
    var lastSeen: int

    function View(): Entry
      reads this
    {
      Entry(state, failures, winStart, openedAt, successes, inFlight, lastSeen)
    }

    constructor (cfg: Config, winStart: int, lastSeen: int)
      ensures this.cfg == cfg && View() == NewEntry(winStart, lastSeen)
    {
      this.cfg := cfg;
      state, failures, this.winStart, openedAt := Closed, 0, winStart, 0;
      successes, inFlight, this.lastSeen := 0, 0, lastSeen;
    }

    method AllowProbe() returns (ok: bool)
      modifies this
      ensures Answer(View(), ok) == TakeSlot(cfg, old(View()))
    {
      if inFlight < cfg.probeConcurrency {
        inFlight := inFlight + 1;
        return true;
      }
      return false;
    }

    method AllowCall(now: int) returns (ok: bool)
      modifies this
      ensures Answer(View(), ok) == Allow(cfg, old(View()), now)
    {
      match state {
        case Closed =>
          if now - winStart > cfg.sampleWindow {
            failures, winStart := 0, now;
          }
          return true;
        case Open =>
          if now - openedAt >= cfg.openFor {
            state := HalfOpen;
            successes, inFlight := 0, 0;
            ok := AllowProbe();
            return;
          }
          return false;
        case HalfOpen =>
          ok := AllowProbe();
      }
    }

    method CanSelect(now: int) returns (ok: bool)
      modifies this
      ensures Answer(View(), ok) == Selectable(cfg, old(View()), now)
    {
      match state {
        case Closed =>
          if now - winStart > cfg.sampleWindow {
            failures, winStart := 0, now;
          }
          return true;
        case Open =>
          if now - openedAt >= cfg.openFor {
            state := HalfOpen;
            successes, inFlight := 0, 0;
            return true;
          }
          return false;
        case HalfOpen =>
          return true;
      }
    }

    method ReleaseSlot()
      modifies this
      ensures View() == Release(old(View()))
    {
      if state == HalfOpen && inFlight > 0 {
        inFlight := inFlight - 1;
      }
    }

    /** A result seen while closed: a success clears the window, failures add up to the threshold. */
    method CountResult(ok: bool, now: int)
      modifies this
      ensures View() == Count(cfg, old(View()), ok, now)
    {
      if ok {
        failures, winStart := 0, now;
        return;
      }
      failures := failures + 1;
      winStart := now;
      if failures >= cfg.failureThreshold {
        state := Open;
        openedAt := now;
      }
    }

    method RecordResult(ok: bool, now: int)
      modifies this
      ensures View() == Record(cfg, old(View()), ok, now)
    {
      lastSeen := now;
      match state {
        case HalfOpen =>
          inFlight := inFlight - 1;
          if ok {
            successes := successes + 1;
            if successes >= cfg.successThreshold {
              Reset(now);
            }
          } else {
            failures, winStart := 0, now;
            state := Open;
            openedAt := now;
          }
        case Closed =>
          CountResult(ok, now);
        case Open =>
      }
    }

    method ProbeResult(ok: bool, now: int)
      modifies this
      ensures View() == RecordProbe(cfg, old(View()), ok, now)
    {
      lastSeen := now;
      match state {
        case HalfOpen =>
        case Open =>
          if ok && now - openedAt >= cfg.openFor {
            state := HalfOpen;
            successes, inFlight := 0, 0;
          }
        case Closed =>
          CountResult(ok, now);
      }
    }

    method Reset(now: int)
      modifies this
      ensures View() == Entry(Closed, 0, now, now, 0, 0, old(lastSeen))
    {
      state := Closed;
      failures, successes, inFlight := 0, 0, 0;
      winStart, openedAt := now, now;
    }
  }

  /** The breakers of all upstreams; every method runs under the registry's lock. */
  class BreakerRegistry {
    const cfg: Config
    var states: map<string, UpstreamBreaker>
    var visits: int

    /** Every upstream has its own breaker, with the registry's configuration. */
    ghost predicate Valid()
      reads this
    {
      && (forall k :: k in states ==> states[k].cfg == cfg)
      && (forall j, k :: j in states && k in states && states[j] == states[k] ==> j == k)
    }

    ghost function View(): Registry
      reads this, states.Values
    {
      Registry(map k | k in states :: states[k].View(), visits)
    }

    constructor (cfg: Config)
      ensures this.cfg == cfg && Valid() && View() == EmptyRegistry
    {
      this.cfg := cfg;
      states := map[];
      visits := 0;
    }

    /** Drops every entry last seen before the cut. */
    method DropIdle(cut: int)
      requires Valid()
      modifies this`states
      ensures Valid() && states.Values <= old(states.Values)
      ensures View() == old(View()).(states := Swept(old(View().states), cut))
    {
      ghost var all := states;
      var keys := states.Keys;
      while keys != {}
        invariant keys <= all.Keys
        invariant states == map k | k in all && (k in keys || !(all[k].lastSeen < cut)) :: all[k]
      {
        var k :| k in keys;
        if states[k].lastSeen < cut {
          states := states - {k};
        }
        keys := keys - {k};
      }
      assert View().states == Swept(old(View().states), cut);
      assert states.Values <= all.Values by {
        forall b | b in states.Values ensures b in all.Values {
          var k :| k in states && states[k] == b;
          assert all[k] == b;
        }
      }
    }

    /** Counts a visit; every 256th drops what has been idle for the time to live. */
    method CountVisit(c: Clock)
      requires Valid()
      modifies this
      ensures Valid() && states.Values <= old(states.Values)
      ensures View() == (if old(visits) + 1 >= SWEEP_EVERY
                         then Registry(Swept(old(View()).states, c.sweep - IDLE_TTL), 0)
                         else Registry(old(View()).states, old(visits) + 1))
    {
      visits := visits + 1;
      if visits >= 256 {
        visits := 0;
        DropIdle(c.sweep - IDLE_TTL);
      }
    }

    method Register(id: string, c: Clock) returns (b: UpstreamBreaker)
      requires Valid() && id !in states
      modifies this`states
      ensures Valid() && states == old(states)[id := b] && fresh(b)
      ensures View() == old(View()).(states := old(View()).states[id := NewEntry(c.winStart, c.seen)])
    {
      ghost var before := View();
      b := new UpstreamBreaker(cfg, c.winStart, c.seen);
      states := states[id := b];
      assert View().states == before.states[id := b.View()];
    }

    method BreakerFor(id: string, c: Clock) returns (b: UpstreamBreaker)
      requires Valid()
      modifies this
      ensures Valid() && View() == Visit(old(View()), id, c)
      ensures id in states && b == states[id]
      ensures forall o :: o in states.Values ==> o in old(states.Values) || fresh(o)
    {
      CountVisit(c);
      if id in states {
        b := states[id];
      } else {
        b := Register(id, c);
      }
    }

    method AllowUpstream(id: string, c: Clock) returns (ok: bool)
      requires Valid()
      modifies this, states.Values
      ensures Valid() && Outcome(View(), ok) == Step(cfg, old(View()), Call(id, AllowOp, c))
      ensures forall o :: o in states.Values ==> o in old(states.Values) || fresh(o)
    {
      var b := BreakerFor(id, c);
      ghost var v := View();
      ok := b.AllowCall(c.now);
      assert View().states == v.states[id := b.View()];
    }

    method SelectableUpstream(id: string, c: Clock) returns (ok: bool)
      requires Valid()
      modifies this, states.Values
      ensures Valid() && Outcome(View(), ok) == Step(cfg, old(View()), Call(id, SelectableOp, c))
      ensures forall o :: o in states.Values ==> o in old(states.Values) || fresh(o)
    {
      var b := BreakerFor(id, c);
      ghost var v := View();
      ok := b.CanSelect(c.now);
      assert View().states == v.states[id := b.View()];
    }

    method RecordUpstream(id: string, ok: bool, c: Clock)
      requires Valid()
      modifies this, states.Values
      ensures Valid() && View() == Step(cfg, old(View()), Call(id, RecordOp(ok), c)).reg
      ensures forall o :: o in states.Values ==> o in old(states.Values) || fresh(o)
    {
      var b := BreakerFor(id, c);
      ghost var v := View();
      b.RecordResult(ok, c.now);
      assert View().states == v.states[id := b.View()];
    }

    method ProbeUpstream(id: string, ok: bool, c: Clock)
      requires Valid()
      modifies this, states.Values
      ensures Valid() && View() == Step(cfg, old(View()), Call(id, ProbeOp(ok), c)).reg
      ensures forall o :: o in states.Values ==> o in old(states.Values) || fresh(o)
    {
      var b := BreakerFor(id, c);
      ghost var v := View();
      b.ProbeResult(ok, c.now);
      assert View().states == v.states[id := b.View()];
    }

    method ReleaseUpstream(id: string, c: Clock)
      requires Valid()
      modifies this, states.Values
      ensures Valid() && View() == Step(cfg, old(View()), Call(id, ReleaseOp, c)).reg
      ensures forall o :: o in states.Values ==> o in old(states.Values) || fresh(o)
    {
      var b := BreakerFor(id, c);
      ghost var v := View();
      b.ReleaseSlot();
      assert View().states == v.states[id := b.View()];
    }

    method Sweep(now: int)
      requires Valid()
      modifies this`states
      ensures Valid() && View() == Step(cfg, old(View()), SweepAll(now)).reg
      ensures states.Values <= old(states.Values)
    {
      DropIdle(now - IDLE_TTL);
    }

    /** Whatever other requests do: any events, one after the other. */
    method Replay(es: seq<Event>)
      requires Valid()
      modifies this, states.Values
      ensures Valid() && View() == Run(cfg, old(View()), es)
      ensures forall o :: o in states.Values ==> o in old(states.Values) || fresh(o)
    {
      for i := 0 to |es|
        invariant Valid() && View() == Run(cfg, old(View()), es[..i])
        invariant forall o :: o in states.Values ==> o in old(states.Values) || fresh(o)
      {
        RunSnoc(cfg, old(View()), es[..i], es[i]);
        assert es[..i + 1] == es[..i] + [es[i]];
        match es[i] {
          case SweepAll(now) => Sweep(now);
          case Call(id, AllowOp, c) => var _ := AllowUpstream(id, c);
          case Call(id, SelectableOp, c) => var _ := SelectableUpstream(id, c);
          case Call(id, RecordOp(ok), c) => RecordUpstream(id, ok, c);
          case Call(id, ProbeOp(ok), c) => ProbeUpstream(id, ok, c);
          case Call(id, ReleaseOp, c) => ReleaseUpstream(id, c);
        }
      }
      assert es[..|es|] == es;
    }
  }
}
