/**
  * The handlers of many requests on one registry, interleaved in any way (pkg/core/proxy.go, pkg/core/breaker.go):
  * what each handler does makes up the ticket discipline under which the probe slots are accounted for.
  */
module HandlerSlots {
  import opened Common
  import opened Breaker
  import opened BreakerRuns
  import opened Upstreams
  import opened Picking
  import opened Handlers
  import opened ProbeSlots

  // ----- What one handler's calls are, at any moment of its life -----

  /** The request has been granted its Allow for `id` and has not settled it. */
  ghost predicate Holding(cfg: Config, r0: Registry, es: seq<Event>, own: seq<nat>, id: string) {
    var n := |own|;
    && n > 0 && Increasing(own) && TookNothing(cfg, r0, es, own[..n - 1])
    && own[n - 1] < |es| && Grants(cfg, r0, es, own[n - 1], id)
  }

  predicate Settles(op: Op) {
    op.RecordOp? || op.ReleaseOp?
  }

  /** A handler has taken nothing yet, or holds what it was granted, or has settled it. */
  ghost predicate HandlerCalls(cfg: Config, r0: Registry, es: seq<Event>, own: seq<nat>) {
    || TookNothing(cfg, r0, es, own)
    || (exists id :: Holding(cfg, r0, es, own, id))
    || (exists id, op :: Settles(op) && Paired(cfg, r0, es, own, id, op))
  }

  ghost predicate Finished(cfg: Config, r0: Registry, es: seq<Event>, own: seq<nat>) {
    HandlerCalls(cfg, r0, es, own) && !exists id :: Holding(cfg, r0, es, own, id)
  }

  // ----- A shorter or a longer run of the others changes none of it -----

  lemma {:induction false} GrantsSame(cfg: Config, r: Registry, es: seq<Event>, es': seq<Event>, p: nat, id: string)
    requires es <= es' && p < |es|
    ensures Grants(cfg, r, es, p, id) <==> Grants(cfg, r, es', p, id)
  {
    assert es'[..p] == es[..p];
  }

  lemma {:induction false} TookNothingSame(cfg: Config, r: Registry, es: seq<Event>, es': seq<Event>, own: seq<nat>)
    requires es <= es' && forall j :: 0 <= j < |own| ==> own[j] < |es|
    ensures TookNothing(cfg, r, es, own) <==> TookNothing(cfg, r, es', own)
  {
    hide Step, Run;
    forall j | 0 <= j < |own| ensures es'[..own[j]] == es[..own[j]] && es'[own[j]] == es[own[j]] {
    }
  }

  /** The positions of the run at which `h` is at work. */
  function OwnOf(owner: seq<Option<nat>>, h: nat): (own: seq<nat>)
    ensures forall j :: 0 <= j < |own| ==> own[j] < |owner|
  {
    if owner == [] then []
    else
      var n := |owner| - 1;
      OwnOf(owner[..n], h) + (if owner[n] == Some(h) then [n] else [])
  }

  /** A call that no handler answers for: a selectability question, a health probe or a sweep. */
  predicate Unowned(e: Event) {
    e.Call? ==> e.op.SelectableOp? || e.op.ProbeOp?
  }

  /** Each event is a handler's call or nobody's, and each handler's calls are those of a handler. */
  ghost predicate Handled(cfg: Config, es: seq<Event>, owner: seq<Option<nat>>) {
    && |owner| == |es|
    && (forall i :: 0 <= i < |es| && owner[i].None? ==> Unowned(es[i]))
    && (forall h :: HandlerCalls(cfg, EmptyRegistry, es, OwnOf(owner, h)))
  }

  lemma {:induction false} HoldingSame(
    cfg: Config, r: Registry, es: seq<Event>, es': seq<Event>, own: seq<nat>, id: string)
    requires es <= es' && forall j :: 0 <= j < |own| ==> own[j] < |es|
    ensures Holding(cfg, r, es, own, id) <==> Holding(cfg, r, es', own, id)
  {
    hide Step, Run, TookNothing, Grants;
    if own != [] {
      TookNothingSame(cfg, r, es, es', own[..|own| - 1]);
      GrantsSame(cfg, r, es, es', own[|own| - 1], id);
    }
  }

  /** What a handler holds is the same before a call that is not its own. */
  lemma {:induction false} SameCalls(cfg: Config, es: seq<Event>, es': seq<Event>, own: seq<nat>)
    requires es <= es' && HandlerCalls(cfg, EmptyRegistry, es', own)
    requires forall j :: 0 <= j < |own| ==> own[j] < |es|
    ensures HandlerCalls(cfg, EmptyRegistry, es, own)
  {
    hide Step, Run, TookNothing, Grants;
    TookNothingSame(cfg, EmptyRegistry, es, es', own);
    if id :| Holding(cfg, EmptyRegistry, es', own, id) {
      HoldingSame(cfg, EmptyRegistry, es, es', own, id);
    } else if id, op :| Settles(op) && Paired(cfg, EmptyRegistry, es', own, id, op) {
      TookNothingSame(cfg, EmptyRegistry, es, es', own[..|own| - 2]);
      GrantsSame(cfg, EmptyRegistry, es, es', own[|own| - 2], id);
      assert Paired(cfg, EmptyRegistry, es, own, id, op);
    }
  }

  /** The handler's latest call: it has taken nothing so far and asks, or it settles what it holds. */
  ghost predicate NextCall(cfg: Config, es: seq<Event>, own: seq<nat>, e: Event) {
    && e.Call?
    && (if Settles(e.op) then Holding(cfg, EmptyRegistry, es, own, e.id)
        else (e.op.SelectableOp? || e.op.AllowOp?) && TookNothing(cfg, EmptyRegistry, es, own))
  }

  lemma {:induction false} LastCall(cfg: Config, es: seq<Event>, own: seq<nat>)
    requires |es| > 0 && |own| > 0 && own[|own| - 1] == |es| - 1 && HandlerCalls(cfg, EmptyRegistry, es, own)
    ensures NextCall(cfg, es[..|es| - 1], own[..|own| - 1], es[|es| - 1])
  {
    hide Step, Run;
    var was, mine, n := es[..|es| - 1], own[..|own| - 1], |own|;
    assert Increasing(own);
    if TookNothing(cfg, EmptyRegistry, es, own) {
      assert TookNothing(cfg, EmptyRegistry, es, mine);
      TookNothingSame(cfg, EmptyRegistry, was, es, mine);
    } else if id :| Holding(cfg, EmptyRegistry, es, own, id) {
      TookNothingSame(cfg, EmptyRegistry, was, es, mine);
    } else {
      var id, op :| Settles(op) && Paired(cfg, EmptyRegistry, es, own, id, op);
      assert mine[..n - 2] == own[..n - 2];
      TookNothingSame(cfg, EmptyRegistry, was, es, mine[..n - 2]);
      GrantsSame(cfg, EmptyRegistry, was, es, own[n - 2], id);
      assert Holding(cfg, EmptyRegistry, was, mine, id);
    }
  }

  /** After its latest call a handler holds something exactly when that call is a granted Allow. */
  lemma {:induction false} HoldsAfter(cfg: Config, es: seq<Event>, own: seq<nat>, id: string)
    requires |es| > 0 && |own| > 0 && own[|own| - 1] == |es| - 1 && HandlerCalls(cfg, EmptyRegistry, es, own)
    ensures Holding(cfg, EmptyRegistry, es, own, id) <==>
              Grants(cfg, EmptyRegistry, es, |es| - 1, id)
  {
    hide Step, Run;
  }

  lemma {:induction false} NextCallsBefore(cfg: Config, es: seq<Event>, own: seq<nat>, e: Event)
    requires NextCall(cfg, es, own, e)
    ensures HandlerCalls(cfg, EmptyRegistry, es, own)
  {
    hide TookNothing, Holding;
  }

  /** A handler's calls one event earlier are still those of a handler. */
  lemma {:induction false} CallsBefore(cfg: Config, es: seq<Event>, owner: seq<Option<nat>>, h: nat)
    requires |owner| == |es| > 0 && HandlerCalls(cfg, EmptyRegistry, es, OwnOf(owner, h))
    ensures HandlerCalls(cfg, EmptyRegistry, es[..|es| - 1], OwnOf(owner[..|es| - 1], h))
  {
    hide HandlerCalls, NextCall;
    var n, own := |es| - 1, OwnOf(owner, h);
    if owner[n] == Some(h) {
      LastCall(cfg, es, own);
      assert own[..|own| - 1] == OwnOf(owner[..n], h);
      NextCallsBefore(cfg, es[..n], own[..|own| - 1], es[n]);
    } else {
      assert own == OwnOf(owner[..n], h);
      SameCalls(cfg, es[..n], es, own);
    }
  }

  lemma {:induction false} HandledBefore(cfg: Config, es: seq<Event>, owner: seq<Option<nat>>)
    requires |es| > 0 && Handled(cfg, es, owner)
    ensures Handled(cfg, es[..|es| - 1], owner[..|es| - 1])
  {
    hide HandlerCalls, OwnOf;
    var was := owner[..|es| - 1];
    forall h ensures HandlerCalls(cfg, EmptyRegistry, es[..|es| - 1], OwnOf(was, h)) {
      CallsBefore(cfg, es, owner, h);
    }
  }

  // ----- The run as steps of the ticketed system -----

  /** The step of the ticketed system that this event is when `who` makes it. */
  function ActOf(e: Event, who: Option<nat>): Act {
    match e
    case Call(id, AllowOp, c) => if who.Some? then Admit(who.value, id, c) else Background(e)
    case Call(_, RecordOp(ok), c) => if who.Some? then Settle(who.value, RecordOp(ok), c) else Background(e)
    case Call(_, ReleaseOp, c) => if who.Some? then Settle(who.value, ReleaseOp, c) else Background(e)
    case _ => Background(e)
  }

  function Acts(es: seq<Event>, owner: seq<Option<nat>>): (acts: seq<Act>)
    requires |owner| == |es|
    ensures |acts| == |es|
  {
    if es == [] then [] else Acts(es[..|es| - 1], owner[..|es| - 1]) + [ActOf(es[|es| - 1], owner[|es| - 1])]
  }

  /** The system stands where the run leads, and its tickets are out to the handlers that hold something. */
  ghost predicate Tracks(cfg: Config, es: seq<Event>, owner: seq<Option<nat>>, s: System) {
    && s.reg == Run(cfg, EmptyRegistry, es)
    && (forall h, id :: Holding(cfg, EmptyRegistry, es, OwnOf(owner, h), id) <==> h in s.tickets && s.tickets[h].id == id)
  }

  /** Each event is a step that the ticketed system can take there. */
  lemma {:induction false} EventIsStep(cfg: Config, es: seq<Event>, owner: seq<Option<nat>>, s: System)
    requires |es| > 0 && Handled(cfg, es, owner) && Tracks(cfg, es[..|es| - 1], owner[..|es| - 1], s)
    ensures var n := |es| - 1;
            var a := ActOf(es[n], owner[n]);
            Enabled(s, a) && EventOf(s, a) == es[n]
  {
    hide Step, Run, TookNothing, Holding, HandlerCalls;
    var n := |es| - 1;
    if owner[n].Some? {
      var h := owner[n].value;
      var own, was := OwnOf(owner, h), OwnOf(owner[..n], h);
      LastCall(cfg, es, own);
      assert own[..|own| - 1] == was;
      if es[n].op.AllowOp? {
        NothingHeld(cfg, es[..n], was);
        assert h in s.tickets ==> Holding(cfg, EmptyRegistry, es[..n], was, s.tickets[h].id);
      }
    }
  }

  lemma {:induction false} NothingHeld(cfg: Config, es: seq<Event>, own: seq<nat>)
    requires TookNothing(cfg, EmptyRegistry, es, own)
    ensures forall id :: !Holding(cfg, EmptyRegistry, es, own, id)
  {
    hide Step, Run;
  }

  /** The step keeps the tickets with the handlers that hold something. */
  lemma {:induction false} StepTracks(cfg: Config, es: seq<Event>, owner: seq<Option<nat>>, s: System)
    requires |es| > 0 && Handled(cfg, es, owner) && Tracks(cfg, es[..|es| - 1], owner[..|es| - 1], s)
    requires var a := ActOf(es[|es| - 1], owner[|es| - 1]); Enabled(s, a) && EventOf(s, a) == es[|es| - 1]
    ensures Tracks(cfg, es, owner, Next(cfg, s, ActOf(es[|es| - 1], owner[|es| - 1])))
  {
    hide Step, Holding, HandlerCalls, Is, PeriodOf;
    var n := |es| - 1;
    var e, a := es[n], ActOf(es[n], owner[n]);
    var s' := Next(cfg, s, a);
    forall h, id
      ensures Holding(cfg, EmptyRegistry, es, OwnOf(owner, h), id) <==> h in s'.tickets && s'.tickets[h].id == id
    {
      if owner[n] == Some(h) {
        OwnTicket(cfg, es, owner, s, h, id);
      } else {
        assert OwnOf(owner, h) == OwnOf(owner[..n], h);
        HoldingSame(cfg, EmptyRegistry, es[..n], es, OwnOf(owner, h), id);
      }
    }
  }

  lemma {:induction false} OwnTicket(
    cfg: Config, es: seq<Event>, owner: seq<Option<nat>>, s: System, h: nat, id: string)
    requires |es| > 0 && Handled(cfg, es, owner) && Tracks(cfg, es[..|es| - 1], owner[..|es| - 1], s)
    requires owner[|es| - 1] == Some(h)
    requires var a := ActOf(es[|es| - 1], Some(h)); Enabled(s, a) && EventOf(s, a) == es[|es| - 1]
    ensures var s' := Next(cfg, s, ActOf(es[|es| - 1], Some(h)));
            Holding(cfg, EmptyRegistry, es, OwnOf(owner, h), id) <==> h in s'.tickets && s'.tickets[h].id == id
  {
    hide Step, Run, Holding, HandlerCalls, Is, PeriodOf;
    var n := |es| - 1;
    var own := OwnOf(owner, h);
    LastCall(cfg, es, own);
    HoldsAfter(cfg, es, own, id);
    assert own[..|own| - 1] == OwnOf(owner[..n], h);
    if es[n].op.SelectableOp? || es[n].op.AllowOp? {
      NothingHeld(cfg, es[..n], own[..|own| - 1]);
      assert h in s.tickets ==> Holding(cfg, EmptyRegistry, es[..n], OwnOf(owner[..n], h), s.tickets[h].id);
    }
  }

  /**
    * However the handlers are interleaved, with each other, with health probes and with sweeps, the run is one of
    * the ticketed system, which ends in the same registry; a ticket is out exactly to a handler that has been
    * granted its Allow and has not settled it.
    */
  lemma {:induction false} HandlersKeepTickets(cfg: Config, es: seq<Event>, owner: seq<Option<nat>>)
    requires Handled(cfg, es, owner)
    ensures Possible(cfg, Acts(es, owner))
    ensures Tracks(cfg, es, owner, After(cfg, Acts(es, owner)))
  {
    hide Step, Holding, HandlerCalls, Next, Enabled, EventOf, ActOf;
    if es == [] {
      assert owner == [];
      forall h, id ensures !Holding(cfg, EmptyRegistry, es, OwnOf(owner, h), id) {
        NothingHeld(cfg, es, []);
      }
    } else {
      var n := |es| - 1;
      var acts := Acts(es[..n], owner[..n]);
      HandledBefore(cfg, es, owner);
      HandlersKeepTickets(cfg, es[..n], owner[..n]);
      EventIsStep(cfg, es, owner, After(cfg, acts));
      StepTracks(cfg, es, owner, After(cfg, acts));
      AfterSnoc(cfg, acts, ActOf(es[n], owner[n]));
    }
  }

  /**
    * So the handlers' own discipline accounts for the probe slots: the counts stay within the limit, and they
    * are exact all along exactly when no result crosses half-open periods.
    */
  lemma {:induction false} HandlersAccountForSlots(cfg: Config, es: seq<Event>, owner: seq<Option<nat>>)
    requires cfg.probeConcurrency >= 1 && Handled(cfg, es, owner)
    ensures var acts := Acts(es, owner);
            && Possible(cfg, acts) && After(cfg, acts).reg == Run(cfg, EmptyRegistry, es) && Inv(cfg, After(cfg, acts))
            && (AlwaysExact(cfg, acts) <==> NoStrays(cfg, acts))
  {
    hide Step, HandlerCalls, Inv, AlwaysExact, NoStrays, Holding;
    HandlersKeepTickets(cfg, es, owner);
    SlotsBounded(cfg, Acts(es, owner));
    SlotsExactIffNoStrays(cfg, Acts(es, owner));
  }

  lemma {:induction false} TicketsAreHeld(cfg: Config, es: seq<Event>, owner: seq<Option<nat>>, s: System)
    requires Tracks(cfg, es, owner, s)
    requires forall h, id :: !Holding(cfg, EmptyRegistry, es, OwnOf(owner, h), id)
    ensures s.tickets == map[]
  {
    hide Step, Run, Holding;
    forall h ensures h !in s.tickets {
      var id := if h in s.tickets then s.tickets[h].id else "";
      assert !Holding(cfg, EmptyRegistry, es, OwnOf(owner, h), id);
    }
  }

  /** Once every handler is through, no half-open upstream has a slot taken, unless a result crossed periods. */
  lemma {:induction false} AllSlotsComeBack(cfg: Config, es: seq<Event>, owner: seq<Option<nat>>, k: string)
    requires cfg.probeConcurrency >= 1 && Handled(cfg, es, owner)
    requires forall h :: Finished(cfg, EmptyRegistry, es, OwnOf(owner, h))
    requires Is(Run(cfg, EmptyRegistry, es), k, HalfOpen)
    ensures Possible(cfg, Acts(es, owner))
    ensures After(cfg, Acts(es, owner)).tickets == map[]
    ensures NoStrays(cfg, Acts(es, owner)) ==> Run(cfg, EmptyRegistry, es).states[k].inFlight == 0
  {
    hide Step, Run, Holding, HandlerCalls, Acts, After, Possible, NoStrays;
    HandlersKeepTickets(cfg, es, owner);
    var s := After(cfg, Acts(es, owner));
    SlotsExactIffNoStrays(cfg, Acts(es, owner));
    forall h, id ensures !Holding(cfg, EmptyRegistry, es, OwnOf(owner, h), id) {
      assert Finished(cfg, EmptyRegistry, es, OwnOf(owner, h));
    }
    TicketsAreHeld(cfg, es, owner, s);
    assert Unreported(s, k) == {};
  }

  // ----- The two handlers are such handlers -----

  function Shifted(own: seq<nat>, shift: nat): (r: seq<nat>)
    ensures |r| == |own| && forall j :: 0 <= j < |own| ==> r[j] == own[j] + shift
  {
    seq(|own|, j requires 0 <= j < |own| => own[j] + shift)
  }

  lemma {:induction false} GrantsWithin(
    cfg: Config, before: seq<Event>, trace: seq<Event>, after: seq<Event>, p: nat, id: string)
    requires p < |trace|
    ensures Grants(cfg, Run(cfg, EmptyRegistry, before), trace, p, id)
            <==> Grants(cfg, EmptyRegistry, before + trace + after, |before| + p, id)
  {
    var es := before + trace + after;
    assert es[..|before| + p] == before + trace[..p];
    RunAppend(cfg, EmptyRegistry, before, trace[..p]);
  }

  lemma {:induction false} TookNothingWithin(
    cfg: Config, before: seq<Event>, trace: seq<Event>, after: seq<Event>, own: seq<nat>)
    requires TookNothing(cfg, Run(cfg, EmptyRegistry, before), trace, own)
    ensures TookNothing(cfg, EmptyRegistry, before + trace + after, Shifted(own, |before|))
  {
    hide Step, Run, Grants;
    forall j | 0 <= j < |own| && trace[own[j]].op == AllowOp
      ensures !Grants(cfg, EmptyRegistry, before + trace + after, |before| + own[j], trace[own[j]].id)
    {
      GrantsWithin(cfg, before, trace, after, own[j], trace[own[j]].id);
    }
  }

  /**
    * What HandleProxy and HandlePassThrough ensure of a request's calls, at any place in a longer run, makes it a
    * finished handler there.
    */
  lemma {:induction false} SettledIsHandler(
    cfg: Config, before: seq<Event>, trace: seq<Event>, after: seq<Event>, own: seq<nat>, sel: Option<Upstream>,
    op: Op)
    requires Settled(cfg, Run(cfg, EmptyRegistry, before), trace, own, sel, op) && Settles(op)
    ensures Finished(cfg, EmptyRegistry, before + trace + after, Shifted(own, |before|))
  {
    hide Step, Run, TookNothing, Grants;
    var es, mine, n := before + trace + after, Shifted(own, |before|), |own|;
    if sel.None? {
      TookNothingWithin(cfg, before, trace, after, own);
      NothingHeld(cfg, es, mine);
    } else {
      TookNothingWithin(cfg, before, trace, after, own[..n - 2]);
      assert Shifted(own[..n - 2], |before|) == mine[..n - 2];
      GrantsWithin(cfg, before, trace, after, own[n - 2], sel.value.id);
      assert es[mine[n - 1]] == trace[own[n - 1]];
      assert Paired(cfg, EmptyRegistry, es, mine, sel.value.id, op);
      SettledIsNotHeld(cfg, es, mine, sel.value.id, op);
    }
  }

  lemma {:induction false} SettledIsNotHeld(cfg: Config, es: seq<Event>, own: seq<nat>, id: string, op: Op)
    requires Settles(op) && Paired(cfg, EmptyRegistry, es, own, id, op)
    ensures forall other :: !Holding(cfg, EmptyRegistry, es, own, other)
  {
    hide Step, Run;
  }

  /** These calls are what one run of HandleProxy or HandlePassThrough makes, somewhere within the events. */
  ghost predicate FromHandler(cfg: Config, es: seq<Event>, calls: seq<nat>) {
    exists before, trace, after, own, sel: Option<Upstream>, exit, resp ::
      && es == before + trace + after && calls == Shifted(own, |before|)
      && Settled(cfg, Run(cfg, EmptyRegistry, before), trace, own, sel, ReportOf(exit, resp))
  }

  /** So any interleaving of such requests with what is nobody's is handled, and every request is through. */
  lemma {:induction false} RequestsAreHandled(cfg: Config, es: seq<Event>, owner: seq<Option<nat>>)
    requires |owner| == |es| && forall i :: 0 <= i < |es| && owner[i].None? ==> Unowned(es[i])
    requires forall h :: FromHandler(cfg, es, OwnOf(owner, h))
    ensures Handled(cfg, es, owner)
    ensures forall h :: Finished(cfg, EmptyRegistry, es, OwnOf(owner, h))
  {
    hide Step, Run, Holding, HandlerCalls, Settled;
    forall h ensures Finished(cfg, EmptyRegistry, es, OwnOf(owner, h)) {
      assert FromHandler(cfg, es, OwnOf(owner, h));
      var before, trace, after, own, sel: Option<Upstream>, exit, resp :|
        && es == before + trace + after && OwnOf(owner, h) == Shifted(own, |before|)
        && Settled(cfg, Run(cfg, EmptyRegistry, before), trace, own, sel, ReportOf(exit, resp));
      SettledIsHandler(cfg, before, trace, after, own, sel, ReportOf(exit, resp));
    }
  }
}
