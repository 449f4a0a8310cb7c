/**
  * The accounting of half-open probe slots when many requests share the registry: each request that is
  * granted an Allow holds a ticket until it reports a result or releases it.
  */
module ProbeSlots {
  import opened Common
  import opened Breaker
  import opened BreakerRuns

  /** A granted request; `period` is the half-open period in which it took a probe slot, if it took one. */
  datatype Ticket = Ticket(id: string, period: Option<nat>)

  /** The registry, the tickets out, and the number of each upstream's latest half-open period. */
  datatype System = System(reg: Registry, tickets: map<nat, Ticket>, period: map<string, nat>, next: nat)

  const Start := System(EmptyRegistry, map[], map[], 0)

  /** Atomic steps, each one registry call under its lock. */
  datatype Act =
    | Admit(req: nat, id: string, clock: Clock)
    | Settle(req: nat, op: Op, clock: Clock)
    | Background(e: Event)

  predicate Enabled(s: System, a: Act) {
    match a
    case Admit(req, _, _) => req !in s.tickets
    case Settle(req, op, _) => req in s.tickets && (op.RecordOp? || op.ReleaseOp?)
    case Background(e) => e.Call? ==> e.op.SelectableOp? || e.op.ProbeOp?
  }

  function EventOf(s: System, a: Act): Event
    requires Enabled(s, a)
  {
    match a
    case Admit(_, id, c) => Call(id, AllowOp, c)
    case Settle(req, op, c) => Call(s.tickets[req].id, op, c)
    case Background(e) => e
  }

  /** The registry moves on; an upstream that becomes half-open starts a new period. */
  function Advance(s: System, reg: Registry, e: Event): System {
    if e.Call? && Is(reg, e.id, HalfOpen) && !Is(s.reg, e.id, HalfOpen)
    then s.(reg := reg, period := s.period[e.id := s.next], next := s.next + 1)
    else s.(reg := reg)
  }

  /** The half-open period an upstream is in, or was last in. */
  function PeriodOf(s: System, k: string): Option<nat> {
    if k in s.period then Some(s.period[k]) else None
  }

  function Next(cfg: Config, s: System, a: Act): System
    requires Enabled(s, a)
  {
    var out := Step(cfg, s.reg, EventOf(s, a));
    var moved := Advance(s, out.reg, EventOf(s, a));
    match a
    case Admit(req, id, _) =>
      if !out.ok then moved
      else
        var period := if Is(out.reg, id, HalfOpen) then PeriodOf(moved, id) else None;
        moved.(tickets := s.tickets[req := Ticket(id, period)])
    case Settle(req, _, _) => moved.(tickets := s.tickets - {req})
    case Background(_) => moved
  }

  /** The requests that took a slot in the upstream's current period and have not reported. */
  function Unreported(s: System, k: string): set<nat> {
    set r | r in s.tickets && s.tickets[r] == Ticket(k, PeriodOf(s, k)) && k in s.period
  }

  predicate Numbered(s: System) {
    && (forall k :: k in s.reg.states && s.reg.states[k].state == HalfOpen ==> k in s.period && s.period[k] < s.next)
    && (forall r :: r in s.tickets && s.tickets[r].period.Some? ==> s.tickets[r].period.value < s.next)
  }

  /** No upstream counts more probes than it allows, nor more than are unreported. */
  predicate Inv(cfg: Config, s: System) {
    && Numbered(s)
    && (forall k :: k in s.reg.states && s.reg.states[k].state == HalfOpen ==>
          s.reg.states[k].inFlight <= cfg.probeConcurrency && s.reg.states[k].inFlight <= |Unreported(s, k)|)
  }

  /** Every half-open upstream counts exactly its unreported probes. */
  predicate Exact(s: System) {
    forall k :: k in s.reg.states && s.reg.states[k].state == HalfOpen ==>
      s.reg.states[k].inFlight == |Unreported(s, k)|
  }

  /** A result or release from an earlier period that frees a slot of the current one. */
  predicate Stray(cfg: Config, s: System, a: Act)
    requires Enabled(s, a)
  {
    && a.Settle?
    && var k := s.tickets[a.req].id;
       && Is(s.reg, k, HalfOpen) && !Evicts(s.reg, EventOf(s, a), k)
       && s.tickets[a.req].period != PeriodOf(s, k)
       && (if a.op.ReleaseOp? then s.reg.states[k].inFlight > 0
           else Is(Step(cfg, s.reg, EventOf(s, a)).reg, k, HalfOpen))
  }

  // ----- One step -----

  lemma {:induction false} OthersKeep(cfg: Config, r: Registry, e: Event, k: string)
    requires k in Step(cfg, r, e).reg.states && !(e.Call? && e.id == k)
    ensures k in r.states && Step(cfg, r, e).reg.states[k] == r.states[k]
  {
  }

  lemma {:induction false} OtherUpstream(cfg: Config, s: System, a: Act, k: string)
    requires Inv(cfg, s) && Enabled(s, a)
    requires !(EventOf(s, a).Call? && EventOf(s, a).id == k) && Is(Next(cfg, s, a).reg, k, HalfOpen)
    ensures Is(s.reg, k, HalfOpen) && Next(cfg, s, a).reg.states[k] == s.reg.states[k]
    ensures k in Next(cfg, s, a).period && Next(cfg, s, a).period[k] == s.period[k]
    ensures Unreported(Next(cfg, s, a), k) == Unreported(s, k)
  {
    OthersKeep(cfg, s.reg, EventOf(s, a), k);
  }

  /** What one call does to the slots of an upstream that is half-open afterwards. */
  lemma {:induction false} SlotChange(cfg: Config, r: Registry, e: Event)
    requires e.Call? && Is(Step(cfg, r, e).reg, e.id, HalfOpen)
    ensures var out, k := Step(cfg, r, e), e.id;
            var before := if Is(r, k, HalfOpen) then r.states[k].inFlight else 0;
            var after := out.reg.states[k].inFlight;
            && (Is(r, k, HalfOpen) ==> !Evicts(r, e, k))
            && match e.op
               case AllowOp => if out.ok then after == before + 1 && before < cfg.probeConcurrency else after == before
               case RecordOp(_) => Is(r, k, HalfOpen) && after == before - 1
               case ReleaseOp => Is(r, k, HalfOpen) && after == (if before > 0 then before - 1 else before)
               case _ => after == before
  {
  }

  lemma {:induction false} NewPeriodIsEmpty(cfg: Config, s: System, k: string, tickets: map<nat, Ticket>)
    requires Numbered(s) && tickets == s.tickets
    ensures (set r | r in tickets && tickets[r] == Ticket(k, Some(s.next))) == {}
  {
  }

  lemma {:induction false} AdmitSlots(cfg: Config, s: System, a: Act)
    requires Inv(cfg, s) && Enabled(s, a) && a.Admit? && Is(Next(cfg, s, a).reg, a.id, HalfOpen)
    requires cfg.probeConcurrency >= 1
    ensures var s' := Next(cfg, s, a);
            && a.id in s'.period && s'.period[a.id] < s'.next
            && s'.reg.states[a.id].inFlight - |Unreported(s', a.id)|
               == (if Is(s.reg, a.id, HalfOpen) then s.reg.states[a.id].inFlight - |Unreported(s, a.id)| else 0)
            && s'.reg.states[a.id].inFlight <= cfg.probeConcurrency
  {
    hide Step;
    var s' := Next(cfg, s, a);
    var out := Step(cfg, s.reg, EventOf(s, a));
    SlotChange(cfg, s.reg, EventOf(s, a));
    NewPeriodIsEmpty(cfg, s, a.id, s.tickets);
    var held := if Is(s.reg, a.id, HalfOpen) then Unreported(s, a.id) else {};
    if out.ok {
      assert Unreported(s', a.id) == held + {a.req};
    } else {
      assert Unreported(s', a.id) == held;
    }
  }

  lemma {:induction false} SettleSlots(cfg: Config, s: System, a: Act)
    requires Inv(cfg, s) && Enabled(s, a) && a.Settle? && Is(Next(cfg, s, a).reg, s.tickets[a.req].id, HalfOpen)
    ensures var s', k := Next(cfg, s, a), s.tickets[a.req].id;
            && Is(s.reg, k, HalfOpen) && k in s'.period && s'.period[k] == s.period[k]
            && Unreported(s', k) == Unreported(s, k) - {a.req}
            && (a.req in Unreported(s, k) <==> s.tickets[a.req].period == PeriodOf(s, k))
            && |Unreported(s', k)| == |Unreported(s, k)| - (if a.req in Unreported(s, k) then 1 else 0)
  {
    SlotChange(cfg, s.reg, EventOf(s, a));
  }

  lemma {:induction false} BackgroundSlots(cfg: Config, s: System, a: Act)
    requires Inv(cfg, s) && Enabled(s, a) && a.Background? && a.e.Call? && Is(Next(cfg, s, a).reg, a.e.id, HalfOpen)
    ensures var s', k := Next(cfg, s, a), a.e.id;
            && k in s'.period && s'.period[k] < s'.next
            && (if Is(s.reg, k, HalfOpen)
                then s'.reg.states[k].inFlight == s.reg.states[k].inFlight && Unreported(s', k) == Unreported(s, k)
                else s'.reg.states[k].inFlight == 0 && Unreported(s', k) == {})
  {
    SlotChange(cfg, s.reg, a.e);
    NewPeriodIsEmpty(cfg, s, a.e.id, s.tickets);
  }

  lemma {:induction false} StepKeepsNumbers(cfg: Config, s: System, a: Act)
    requires Inv(cfg, s) && Enabled(s, a)
    ensures Numbered(Next(cfg, s, a))
  {
    var s', e := Next(cfg, s, a), EventOf(s, a);
    forall k | k in s'.reg.states && s'.reg.states[k].state == HalfOpen
      ensures k in s'.period && s'.period[k] < s'.next
    {
      if !(e.Call? && e.id == k) {
        OtherUpstream(cfg, s, a, k);
      }
    }
  }

  /** The bounds hold after every step, whatever results cross periods. */
  lemma {:induction false} StepKeepsInv(cfg: Config, s: System, a: Act)
    requires Inv(cfg, s) && Enabled(s, a) && cfg.probeConcurrency >= 1
    ensures Inv(cfg, Next(cfg, s, a))
  {
    hide Step, Advance, Unreported;
    var s', e := Next(cfg, s, a), EventOf(s, a);
    StepKeepsNumbers(cfg, s, a);
    forall k | k in s'.reg.states && s'.reg.states[k].state == HalfOpen
      ensures s'.reg.states[k].inFlight <= cfg.probeConcurrency && s'.reg.states[k].inFlight <= |Unreported(s', k)|
    {
      UpstreamKeepsInv(cfg, s, a, k);
    }
  }

  lemma {:induction false} UpstreamKeepsInv(cfg: Config, s: System, a: Act, k: string)
    requires Inv(cfg, s) && Enabled(s, a) && cfg.probeConcurrency >= 1 && Is(Next(cfg, s, a).reg, k, HalfOpen)
    ensures var s' := Next(cfg, s, a);
            && k in s'.period
            && s'.reg.states[k].inFlight <= cfg.probeConcurrency && s'.reg.states[k].inFlight <= |Unreported(s', k)|
  {
    hide Step, Unreported;
    var e := EventOf(s, a);
    if !(e.Call? && e.id == k) {
      OtherUpstream(cfg, s, a, k);
    } else {
      match a
      case Admit(_, _, _) => AdmitSlots(cfg, s, a);
      case Settle(_, _, _) =>
        SettleSlots(cfg, s, a);
        SlotChange(cfg, s.reg, e);
      case Background(_) => BackgroundSlots(cfg, s, a);
    }
  }

  /** The count stays exact for an upstream, except that a stray result makes it too small. */
  lemma {:induction false} UpstreamExact(cfg: Config, s: System, a: Act, k: string)
    requires cfg.probeConcurrency >= 1 && Inv(cfg, s) && Exact(s) && Enabled(s, a) && Is(Next(cfg, s, a).reg, k, HalfOpen)
    ensures var s' := Next(cfg, s, a);
            && k in s'.period
            && (s'.reg.states[k].inFlight == |Unreported(s', k)| <==>
                !(Stray(cfg, s, a) && s.tickets[a.req].id == k))
  {
    hide Step, Unreported;
    var e := EventOf(s, a);
    if !(e.Call? && e.id == k) {
      OtherUpstream(cfg, s, a, k);
    } else {
      match a
      case Admit(_, _, _) => AdmitSlots(cfg, s, a);
      case Settle(_, _, _) =>
        SettleSlots(cfg, s, a);
        SlotChange(cfg, s.reg, e);
        HeldMeansPositive(s, k, a.req);
      case Background(_) => BackgroundSlots(cfg, s, a);
    }
  }

  lemma {:induction false} HeldMeansPositive(s: System, k: string, req: nat)
    requires k in s.period
    ensures req in Unreported(s, k) ==> |Unreported(s, k)| > 0
  {
  }

  /** From exact counts a step leads to exact counts exactly when it is not a stray result. */
  lemma {:induction false} StepExactIff(cfg: Config, s: System, a: Act)
    requires Inv(cfg, s) && Exact(s) && Enabled(s, a) && cfg.probeConcurrency >= 1
    ensures Inv(cfg, Next(cfg, s, a))
    ensures Exact(Next(cfg, s, a)) <==> !Stray(cfg, s, a)
  {
    hide Step, Unreported, Advance;
    var s' := Next(cfg, s, a);
    StepKeepsInv(cfg, s, a);
    if Stray(cfg, s, a) {
      var k := s.tickets[a.req].id;
      StrayStaysHalfOpen(cfg, s, a);
      UpstreamExact(cfg, s, a, k);
    } else {
      forall k | k in s'.reg.states && s'.reg.states[k].state == HalfOpen
        ensures s'.reg.states[k].inFlight == |Unreported(s', k)|
      {
        UpstreamExact(cfg, s, a, k);
      }
    }
  }

  lemma {:induction false} StrayStaysHalfOpen(cfg: Config, s: System, a: Act)
    requires Inv(cfg, s) && Enabled(s, a) && Stray(cfg, s, a)
    ensures Is(Next(cfg, s, a).reg, s.tickets[a.req].id, HalfOpen)
  {
  }

  // ----- Whole runs -----

  /** The steps can be taken one after the other from the start. */
  predicate Possible(cfg: Config, acts: seq<Act>)
    decreases |acts|, 0
  {
    acts == [] || (var init := acts[..|acts| - 1]; Possible(cfg, init) && Enabled(After(cfg, init), acts[|acts| - 1]))
  }

  function After(cfg: Config, acts: seq<Act>): System
    requires Possible(cfg, acts)
    decreases |acts|, 1
  {
    if acts == [] then Start else Next(cfg, After(cfg, acts[..|acts| - 1]), acts[|acts| - 1])
  }

  /** In every run the in-flight count stays within the probe limit and the number of unreported probes. */
  lemma {:induction false} SlotsBounded(cfg: Config, acts: seq<Act>)
    requires cfg.probeConcurrency >= 1 && Possible(cfg, acts)
    ensures Inv(cfg, After(cfg, acts))
  {
    if acts != [] {
      SlotsBounded(cfg, acts[..|acts| - 1]);
      StepKeepsInv(cfg, After(cfg, acts[..|acts| - 1]), acts[|acts| - 1]);
    }
  }

  /** No step of the run is a result that crosses into a later half-open period and frees a slot there. */
  predicate NoStrays(cfg: Config, acts: seq<Act>)
    requires Possible(cfg, acts)
  {
    acts == [] || (var init := acts[..|acts| - 1]; NoStrays(cfg, init) && !Stray(cfg, After(cfg, init), acts[|acts| - 1]))
  }

  /** After every step of the run the counts are exact. */
  predicate AlwaysExact(cfg: Config, acts: seq<Act>)
    requires Possible(cfg, acts)
  {
    Exact(After(cfg, acts)) && (acts == [] || AlwaysExact(cfg, acts[..|acts| - 1]))
  }

  /**
    * In every run the in-flight counts equal the numbers of unreported probes all along, and so stay
    * in 0..ProbeConcurrency, exactly when no result crosses half-open periods.
    */
  lemma {:induction false} SlotsExactIffNoStrays(cfg: Config, acts: seq<Act>)
    requires cfg.probeConcurrency >= 1 && Possible(cfg, acts)
    ensures AlwaysExact(cfg, acts) <==> NoStrays(cfg, acts)
    ensures NoStrays(cfg, acts) ==>
              forall k :: Is(After(cfg, acts).reg, k, HalfOpen) ==>
                var b := After(cfg, acts).reg.states[k];
                0 <= b.inFlight <= cfg.probeConcurrency && b.inFlight == |Unreported(After(cfg, acts), k)|
  {
    hide Step, Unreported, Next, Stray;
    SlotsBounded(cfg, acts);
    if acts != [] {
      var init, a := acts[..|acts| - 1], acts[|acts| - 1];
      SlotsBounded(cfg, init);
      SlotsExactIffNoStrays(cfg, init);
      if AlwaysExact(cfg, init) {
        StepExactIff(cfg, After(cfg, init), a);
      }
    }
  }

  /** A stray result takes a slot that nobody gave back: the count falls one short. */
  lemma {:induction false} StrayUndercounts(cfg: Config, s: System, a: Act)
    requires Inv(cfg, s) && Exact(s) && Enabled(s, a) && Stray(cfg, s, a)
    ensures var k, s' := s.tickets[a.req].id, Next(cfg, s, a);
            Is(s'.reg, k, HalfOpen) && s'.reg.states[k].inFlight == |Unreported(s', k)| - 1
  {
    hide Step, Unreported;
    StrayStaysHalfOpen(cfg, s, a);
    SettleSlots(cfg, s, a);
    SlotChange(cfg, s.reg, EventOf(s, a));
  }

  const DEMO := Config(1, 100, 9, 2, 1)

  function DemoSystem(b: Entry, visits: int, tickets: map<nat, Ticket>, halfOpened: bool): System {
    System(Registry(map["u" := b], visits), tickets, if halfOpened then map["u" := 0] else map[],
           if halfOpened then 1 else 0)
  }

  /** Such a run exists: a request admitted while closed reports in the half-open period, and the count is -1. */
  lemma {:induction false} CrossingResultGoesNegative()
    ensures var at0, at9 := Clock(0, 0, 0, 0), Clock(9, 9, 9, 9);
            var acts := [Admit(1, "u", at0)] + [Admit(2, "u", at0)] + [Settle(2, RecordOp(false), at0)]
                        + [Background(Call("u", SelectableOp, at9))] + [Settle(1, RecordOp(true), at9)];
            && Possible(DEMO, acts) && Is(After(DEMO, acts).reg, "u", HalfOpen)
            && After(DEMO, acts).reg.states["u"].inFlight == -1
  {
    hide After, Possible, Next;
    var at0, at9 := Clock(0, 0, 0, 0), Clock(9, 9, 9, 9);
    var a1, a2, a3 := Admit(1, "u", at0), Admit(2, "u", at0), Settle(2, RecordOp(false), at0);
    var a4, a5 := Background(Call("u", SelectableOp, at9)), Settle(1, RecordOp(true), at9);
    assert Possible(DEMO, []) && After(DEMO, []) == Start by { Beginning(); }
    DemoAdmits();
    AfterSnoc(DEMO, [], a1);
    AfterSnoc(DEMO, [] + [a1], a2);
    DemoOpens();
    AfterSnoc(DEMO, [] + [a1] + [a2], a3);
    AfterSnoc(DEMO, [] + [a1] + [a2] + [a3], a4);
    DemoCrosses();
    AfterSnoc(DEMO, [] + [a1] + [a2] + [a3] + [a4], a5);
    assert [] + [a1] == [a1];
  }

  lemma {:induction false} Beginning()
    ensures Possible(DEMO, []) && After(DEMO, []) == Start
  {
  }

  lemma {:induction false} DemoAdmits()
    ensures var at0 := Clock(0, 0, 0, 0);
            var one := map[1 := Ticket("u", None)];
            && Next(DEMO, Start, Admit(1, "u", at0)) == DemoSystem(NewEntry(0, 0), 1, one, false)
            && Next(DEMO, DemoSystem(NewEntry(0, 0), 1, one, false), Admit(2, "u", at0))
            == DemoSystem(NewEntry(0, 0), 2, one[2 := Ticket("u", None)], false)
  {
  }

  lemma {:induction false} DemoOpens()
    ensures var at0, at9 := Clock(0, 0, 0, 0), Clock(9, 9, 9, 9);
            var one := map[1 := Ticket("u", None)];
            var closed := DemoSystem(NewEntry(0, 0), 2, one[2 := Ticket("u", None)], false);
            var broken := DemoSystem(Entry(Open, 1, 0, 0, 0, 0, 0), 3, one, false);
            && Next(DEMO, closed, Settle(2, RecordOp(false), at0)) == broken
            && Next(DEMO, broken, Background(Call("u", SelectableOp, at9)))
            == DemoSystem(Entry(HalfOpen, 1, 0, 0, 0, 0, 0), 4, one, true)
  {
    var two := map[1 := Ticket("u", None)][2 := Ticket("u", None)];
    assert two - {2} == map[1 := Ticket("u", None)];
  }

  lemma {:induction false} DemoCrosses()
    ensures var one := map[1 := Ticket("u", None)];
            var halfOpen := DemoSystem(Entry(HalfOpen, 1, 0, 0, 0, 0, 0), 4, one, true);
            Next(DEMO, halfOpen, Settle(1, RecordOp(true), Clock(9, 9, 9, 9)))
            == DemoSystem(Entry(HalfOpen, 1, 0, 0, 1, -1, 9), 5, map[], true)
  {
  }

  lemma {:induction false} AfterSnoc(cfg: Config, acts: seq<Act>, a: Act)
    requires Possible(cfg, acts) && Enabled(After(cfg, acts), a)
    ensures Possible(cfg, acts + [a]) && After(cfg, acts + [a]) == Next(cfg, After(cfg, acts), a)
  {
    assert (acts + [a])[..|acts|] == acts;
  }
}
