/** Exactly when the breaker lets traffic through, in every run, and what each call leaves behind. */
module BreakerGrants {
  import opened Common
  import opened Breaker
  import opened BreakerRuns
  import opened FailureWindow

  // ----- What the registry still knows -----

  function Calls(es: seq<Event>): nat {
    if es == [] then 0 else Calls(es[..|es| - 1]) + (if es[|es| - 1].Call? then 1 else 0)
  }

  /** The time before which this event drops what was not seen since: an hour ago, at every 256th call. */
  function Cut(es: seq<Event>, e: Event): Option<int> {
    match e
    case SweepAll(now) => Some(now - 3_600_000_000_000)
    case Call(_, _, c) => if (Calls(es) + 1) % 256 == 0 then Some(c.sweep - 3_600_000_000_000) else None
  }

  /** When a result for `k` last came, or when it was first called since it was dropped; none if it is not known. */
  function Seen(es: seq<Event>, k: string): Option<int>
    decreases |es|, 0
  {
    if es == [] then None
    else
      var before, e := es[..|es| - 1], es[|es| - 1];
      var left := if Drops(before, e, k) then None else Seen(before, k);
      if !(e.Call? && e.id == k) then left
      else if e.op.RecordOp? || e.op.ProbeOp? then Some(e.clock.now)
      else if left.None? then Some(e.clock.seen)
      else left
  }

  /** The event forgets `k`. */
  predicate Drops(es: seq<Event>, e: Event, k: string)
    decreases |es|, 1
  {
    var seen, cut := Seen(es, k), Cut(es, e);
    seen.Some? && cut.Some? && seen.value < cut.value
  }

  lemma {:induction false} VisitsCounted(cfg: Config, es: seq<Event>)
    ensures Run(cfg, EmptyRegistry, es).visits == Calls(es) % 256
  {
    hide Apply;
    if es != [] {
      VisitsCounted(cfg, es[..|es| - 1]);
    }
  }

  lemma {:induction false} ApplySees(cfg: Config, b: Entry, op: Op, now: int)
    ensures Apply(cfg, b, op, now).b.lastSeen == (if op.RecordOp? || op.ProbeOp? then now else b.lastSeen)
  {
  }

  /** In every run exactly these upstreams are known, each with the time it was last seen. */
  lemma {:induction false} KnownIffSeen(cfg: Config, es: seq<Event>, k: string)
    ensures var r := Run(cfg, EmptyRegistry, es);
            && (k in r.states <==> Seen(es, k).Some?)
            && (k in r.states ==> r.states[k].lastSeen == Seen(es, k).value)
    decreases |es|, 0
  {
    hide Step, Apply, Evicts;
    if es != [] {
      var before, e := es[..|es| - 1], es[|es| - 1];
      var r := Run(cfg, EmptyRegistry, before);
      KnownIffSeen(cfg, before, k);
      EvictsIffDrops(cfg, before, e, k);
      StepOn(cfg, r, e, k);
      if e.Call? && e.id == k {
        ApplySees(cfg, EntryFor(r, e, k), e.op, e.clock.now);
      }
    }
  }

  /** An event drops an upstream exactly when it is a 256th call, or a sweep, more than an hour after that time. */
  lemma {:induction false} EvictsIffDrops(cfg: Config, es: seq<Event>, e: Event, k: string)
    ensures Evicts(Run(cfg, EmptyRegistry, es), e, k) <==> Drops(es, e, k)
    decreases |es|, 1
  {
    hide Step, Run;
    KnownIffSeen(cfg, es, k);
    VisitsCounted(cfg, es);
  }

  /** When the upstream last opened. */
  function OpenedAt(cfg: Config, es: seq<Event>, k: string): int {
    if es == [] then 0
    else
      var before, e := es[..|es| - 1], es[|es| - 1];
      var r := Run(cfg, EmptyRegistry, before);
      if Is(Step(cfg, r, e).reg, k, Open) && (!Is(r, k, Open) || Drops(before, e, k)) then Ends(e)
      else OpenedAt(cfg, before, k)
  }

  lemma {:induction false} ApplyOpens(cfg: Config, b: Entry, op: Op, now: int)
    ensures var b' := Apply(cfg, b, op, now).b;
            b'.state == Open ==> b'.openedAt == if b.state == Open then b.openedAt else now
  {
  }

  lemma {:induction false} OpenSinceThen(cfg: Config, es: seq<Event>, k: string)
    ensures var r := Run(cfg, EmptyRegistry, es);
            Is(r, k, Open) ==> r.states[k].openedAt == OpenedAt(cfg, es, k)
  {
    hide Step, Apply, Evicts;
    if es != [] {
      var before, e := es[..|es| - 1], es[|es| - 1];
      var r := Run(cfg, EmptyRegistry, before);
      OpenSinceThen(cfg, before, k);
      EvictsIffDrops(cfg, before, e, k);
      StepOn(cfg, r, e, k);
      if e.Call? && e.id == k {
        ApplyOpens(cfg, EntryFor(r, e, k), e.op, e.clock.now);
      }
    }
  }

  // ----- Being let through -----

  /** What a call on `k` finds after this run. */
  datatype Finding = FindsClosed | FindsOpen(since: int) | FindsHalfOpen(taken: int)

  /** An upstream that is not known, or that the call's own sweep forgets, is closed. */
  function Finds(cfg: Config, es: seq<Event>, e: Event, k: string): Finding {
    var r := Run(cfg, EmptyRegistry, es);
    if k !in r.states || Drops(es, e, k) || r.states[k].state == Closed then FindsClosed
    else if r.states[k].state == Open then FindsOpen(OpenedAt(cfg, es, k))
    else FindsHalfOpen(r.states[k].inFlight)
  }

  /** `k` is half-open with this many slots taken. */
  predicate Probing(r: Registry, k: string, taken: int) {
    Is(r, k, HalfOpen) && r.states[k].inFlight == taken
  }

  /**
    * In every run Allow lets a request through exactly when it finds the upstream closed, open for OpenFor, or
    * half-open with a probe slot free; an open one it lets through is half-open with that one slot taken.
    */
  lemma {:induction false} AllowGrantedIff(cfg: Config, es: seq<Event>, e: Event, k: string)
    requires e.Call? && e.id == k && e.op == AllowOp && cfg.probeConcurrency >= 1
    ensures var out, now := Step(cfg, Run(cfg, EmptyRegistry, es), e), e.clock.now;
            match Finds(cfg, es, e, k)
            case FindsClosed => out.ok && Is(out.reg, k, Closed)
            case FindsOpen(since) =>
              && (out.ok <==> now >= since + cfg.openFor)
              && if out.ok then Probing(out.reg, k, 1) else Is(out.reg, k, Open)
            case FindsHalfOpen(taken) =>
              && (out.ok <==> taken < cfg.probeConcurrency)
              && Probing(out.reg, k, if out.ok then taken + 1 else taken)
  {
    hide Step, Evicts, Drops, OpenedAt, Run;
    EvictsIffDrops(cfg, es, e, k);
    OpenSinceThen(cfg, es, k);
    StepOn(cfg, Run(cfg, EmptyRegistry, es), e, k);
  }

  /** Selectable says yes in the same cases but whatever the slots, of which it takes none. */
  lemma {:induction false} SelectableIff(cfg: Config, es: seq<Event>, e: Event, k: string)
    requires e.Call? && e.id == k && e.op == SelectableOp
    ensures var out, now := Step(cfg, Run(cfg, EmptyRegistry, es), e), e.clock.now;
            match Finds(cfg, es, e, k)
            case FindsClosed => out.ok && Is(out.reg, k, Closed)
            case FindsOpen(since) =>
              && (out.ok <==> now >= since + cfg.openFor)
              && if out.ok then Probing(out.reg, k, 0) else Is(out.reg, k, Open)
            case FindsHalfOpen(taken) => out.ok && Probing(out.reg, k, taken)
  {
    hide Step, Evicts, Drops, OpenedAt, Run;
    EvictsIffDrops(cfg, es, e, k);
    OpenSinceThen(cfg, es, k);
    StepOn(cfg, Run(cfg, EmptyRegistry, es), e, k);
  }

  /**
    * In every run a result of real traffic or of an active probe, or a release, leaves an upstream as follows;
    * the failing results that open a closed one are counted by OpensIff, the successes that close a half-open one
    * by LeavesHalfOpenIff.
    */
  lemma {:induction false} ReportsLeave(cfg: Config, es: seq<Event>, e: Event, k: string)
    requires e.Call? && e.id == k && (e.op.RecordOp? || e.op.ProbeOp? || e.op.ReleaseOp?)
    ensures var r, now := Step(cfg, Run(cfg, EmptyRegistry, es), e).reg, e.clock.now;
            match Finds(cfg, es, e, k)
            case FindsClosed => Is(r, k, Closed) || Is(r, k, Open)
            case FindsOpen(since) =>
              if e.op == ProbeOp(true) && now >= since + cfg.openFor then Probing(r, k, 0) else Is(r, k, Open)
            case FindsHalfOpen(taken) =>
              match e.op
              case RecordOp(ok) => if ok then Is(r, k, Closed) || Probing(r, k, taken - 1) else Is(r, k, Open)
              case ReleaseOp => Probing(r, k, if taken > 0 then taken - 1 else taken)
              case _ => Probing(r, k, taken)
  {
    hide Step, Evicts, Drops, OpenedAt, Run;
    EvictsIffDrops(cfg, es, e, k);
    OpenSinceThen(cfg, es, k);
    StepOn(cfg, Run(cfg, EmptyRegistry, es), e, k);
  }
}
