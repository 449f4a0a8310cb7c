/** The breaker calls of the two proxy handlers, exit by exit (pkg/core/proxy.go, handleProxy and handlePassThrough). */
module Handlers {
  import opened Common
  import opened Breaker
  import opened BreakerRuns
  import opened Upstreams
  import opened Picking

  /** What the forwarding attempts end in: no response, or one with a status. */
  datatype Response = NoResponse | Response(status: int)

  /** The handler's exit as far as the breaker is concerned. */
  datatype Exit = RoutingMissing | ModelNotFound | EntryNotSupported | Unavailable | BodyUnread | NotBuilt | Forwarded

  /** recordBreaker: connected, and the status is positive and not a server error. */
  predicate CountsAsSuccess(resp: Response) {
    resp.Response? && 0 < resp.status < 500
  }

  /** Of the request's own calls one is a granted Allow, the next and last settles it, and the others took nothing. */
  ghost predicate Paired(cfg: Config, r0: Registry, trace: seq<Event>, own: seq<nat>, id: string, op: Op) {
    var n := |own|;
    && n >= 2 && own[n - 1] < |trace| && Increasing(own)
    && TookNothing(cfg, r0, trace, own[..n - 2])
    && Grants(cfg, r0, trace, own[n - 2], id)
    && trace[own[n - 1]].Call? && trace[own[n - 1]].id == id && trace[own[n - 1]].op == op
  }

  lemma {:induction false} PairedUp(
    cfg: Config, r0: Registry, picked: seq<Event>, own: seq<nat>, later: seq<Event>, e: Event, id: string)
    requires PickedLast(cfg, r0, picked, own, id)
    requires e.Call? && e.id == id
    ensures Paired(cfg, r0, picked + later + [e], own + [|picked + later|], id, e.op)
  {
    hide Step, Run;
    var n := |own| - 1;
    var own', trace := own + [|picked + later|], picked + later + [e];
    TookNothingExtends(cfg, r0, picked, later + [e], own[..n]);
    assert picked + (later + [e]) == trace;
    assert own'[..n] == own[..n];
    assert trace[..own[n]] == picked[..own[n]];
  }

  /** What the request's calls amount to: a pick settled by this call, or nothing taken. */
  ghost predicate Settled(cfg: Config, r0: Registry, trace: seq<Event>, own: seq<nat>, sel: Option<Upstream>, op: Op) {
    if sel.Some? then Paired(cfg, r0, trace, own, sel.value.id, op) else TookNothing(cfg, r0, trace, own)
  }

  /** What a pick leaves to be settled. */
  ghost predicate Pending(cfg: Config, r0: Registry, trace: seq<Event>, own: seq<nat>, sel: Option<Upstream>) {
    if sel.Some? then PickedLast(cfg, r0, trace, own, sel.value.id) else TookNothing(cfg, r0, trace, own)
  }

  /** A nil breaker or a nil selection is left alone; other requests go on meanwhile. */
  method ReleaseBreaker(sel: Option<Upstream>, reg: BreakerRegistry?, env: Surroundings,
                        ghost r0: Registry, trace0: seq<Event>, own0: seq<nat>)
    returns (trace: seq<Event>, own: seq<nat>)
    requires reg != null ==>
               reg.Valid() && reg.View() == Run(reg.cfg, r0, trace0) && Pending(reg.cfg, r0, trace0, own0, sel)
    modifies reg, if reg != null then reg.states.Values else {}
    ensures trace0 <= trace && own0 <= own && (reg == null ==> trace == trace0)
    ensures reg != null ==>
              && reg.Valid() && reg.View() == Run(reg.cfg, r0, trace)
              && (forall o :: o in reg.states.Values ==> o in old(reg.states.Values) || fresh(o))
              && Settled(reg.cfg, r0, trace, own, sel, ReleaseOp)
  {
    hide Step, Run, Paired, PickedLast, TookNothing;
    trace, own := trace0, own0;
    if reg == null || sel.None? {
      return;
    }
    var r := reg as BreakerRegistry;
    var id, n := sel.value.id, |trace0|;
    var e := Call(id, ReleaseOp, env.clocks(n));
    reg.Replay(env.others(n));
    RunAppend(r.cfg, r0, trace0, env.others(n));
    reg.ReleaseUpstream(id, env.clocks(n));
    RunSnoc(r.cfg, r0, trace0 + env.others(n), e);
    PairedUp(r.cfg, r0, trace0, own0, env.others(n), e, id);
    trace, own := trace0 + env.others(n) + [e], own0 + [|trace0 + env.others(n)|];
  }

  method RecordBreaker(sel: Option<Upstream>, reg: BreakerRegistry?, resp: Response, env: Surroundings,
                       ghost r0: Registry, trace0: seq<Event>, own0: seq<nat>)
    returns (trace: seq<Event>, own: seq<nat>)
    requires reg != null ==>
               reg.Valid() && reg.View() == Run(reg.cfg, r0, trace0) && Pending(reg.cfg, r0, trace0, own0, sel)
    modifies reg, if reg != null then reg.states.Values else {}
    ensures trace0 <= trace && own0 <= own && (reg == null ==> trace == trace0)
    ensures reg != null ==>
              && reg.Valid() && reg.View() == Run(reg.cfg, r0, trace)
              && (forall o :: o in reg.states.Values ==> o in old(reg.states.Values) || fresh(o))
              && Settled(reg.cfg, r0, trace, own, sel, RecordOp(resp.Response? && 1 <= resp.status <= 499))
  {
    hide Step, Run, Paired, PickedLast, TookNothing;
    trace, own := trace0, own0;
    if reg == null || sel.None? {
      return;
    }
    var r := reg as BreakerRegistry;
    var ok := resp.Response? && resp.status > 0 && resp.status < 500;
    var id, n := sel.value.id, |trace0|;
    var e := Call(id, RecordOp(ok), env.clocks(n));
    reg.Replay(env.others(n));
    RunAppend(r.cfg, r0, trace0, env.others(n));
    reg.RecordUpstream(id, ok, env.clocks(n));
    RunSnoc(r.cfg, r0, trace0 + env.others(n), e);
    PairedUp(r.cfg, r0, trace0, own0, env.others(n), e, id);
    trace, own := trace0 + env.others(n) + [e], own0 + [|trace0 + env.others(n)|];
  }

  ghost predicate SomeUsable(ups: seq<Upstream>) {
    exists u :: u in ups && Usable(u)
  }

  /** The exit that follows the pick: blocked, or what the rest of the handler finds. */
  ghost predicate ExitIs(exit: Exit, otherwise: Exit, ups: seq<Upstream>, sel: Option<Upstream>, breaker: bool) {
    exit == (if breaker && sel.None? && SomeUsable(ups) then Unavailable else otherwise)
  }

  /** A handler that has picked reports exactly once, by its exit: it releases unless it has forwarded. */
  function ReportOf(exit: Exit, resp: Response): Op {
    if exit.Forwarded? then RecordOp(CountsAsSuccess(resp)) else ReleaseOp
  }

  /**
    * handleProxy, from its checks to the report of the forwarded request. Without a usable upstream it goes on
    * with the model's own address and reports nothing.
    */
  method HandleProxy(routed: bool, supported: bool, ups: seq<Upstream>, built: bool, resp: Response,
                     reg: BreakerRegistry?, env: Surroundings)
    returns (exit: Exit, sel: Option<Upstream>, trace: seq<Event>, own: seq<nat>)
    requires reg != null ==> reg.Valid()
    modifies reg, if reg != null then reg.states.Values else {}
    ensures !routed ==> exit == RoutingMissing && sel == None && trace == [] && own == []
    ensures routed && !supported ==> exit == EntryNotSupported && sel == None && trace == [] && own == []
    ensures routed && supported ==> ExitIs(exit, if built then Forwarded else NotBuilt, ups, sel, reg != null)
    ensures reg == null ==> trace == []
    ensures reg != null ==>
              && reg.Valid() && reg.View() == Run(reg.cfg, old(reg.View()), trace)
              && (routed && supported ==> PickedByWeight(reg.cfg, old(reg.View()), trace, own, ups, sel))
              && Settled(reg.cfg, old(reg.View()), trace, own, sel, ReportOf(exit, resp))
  {
    hide PickedByWeight, Run, Step, PickedLast, Paired;
    ghost var r0 := if reg != null then reg.View() else EmptyRegistry;
    sel, trace, own := None, [], [];
    NothingYet(reg, r0);
    if !routed {
      return RoutingMissing, sel, trace, own;
    }
    if !supported {
      return EntryNotSupported, sel, trace, own;
    }
    var blocked;
    sel, blocked, trace, own := PickHealthy(ups, reg, env);
    if blocked {
      return Unavailable, sel, trace, own;
    }
    ghost var picked, mine := trace, own;
    if !built {
      trace, own := ReleaseBreaker(sel, reg, env, r0, trace, own);
      PickKept(reg, r0, picked, trace, mine, own, ups, sel);
      return NotBuilt, sel, trace, own;
    }
    trace, own := RecordBreaker(sel, reg, resp, env, r0, trace, own);
    PickKept(reg, r0, picked, trace, mine, own, ups, sel);
    return Forwarded, sel, trace, own;
  }

  lemma NothingYet(reg: BreakerRegistry?, r: Registry)
    ensures reg != null ==> Run(reg.cfg, r, []) == r && TookNothing(reg.cfg, r, [], [])
  {
  }

  lemma PickKept(
    reg: BreakerRegistry?, r: Registry, es: seq<Event>, es': seq<Event>, own: seq<nat>, own': seq<nat>,
    ups: seq<Upstream>, sel: Option<Upstream>)
    requires reg != null ==> PickedByWeight(reg.cfg, r, es, own, ups, sel)
    requires es <= es' && own <= own'
    ensures reg != null ==> PickedByWeight(reg.cfg, r, es', own', ups, sel)
  {
    hide PickedByWeight;
    if reg != null {
      PickExtends(reg.cfg, r, es, es', own, own', ups, sel);
    }
  }

  /** handlePassThrough, likewise; it can also fail to read the body after the pick. */
  method HandlePassThrough(configured: bool, ups: seq<Upstream>, bodyRead: bool, built: bool, resp: Response,
                           reg: BreakerRegistry?, env: Surroundings)
    returns (exit: Exit, sel: Option<Upstream>, trace: seq<Event>, own: seq<nat>)
    requires reg != null ==> reg.Valid()
    modifies reg, if reg != null then reg.states.Values else {}
    ensures !configured ==> exit == ModelNotFound && sel == None && trace == [] && own == []
    ensures configured ==>
              var found := if !bodyRead then BodyUnread else if !built then NotBuilt else Forwarded;
              ExitIs(exit, found, ups, sel, reg != null)
    ensures reg == null ==> trace == []
    ensures reg != null ==>
              && reg.Valid() && reg.View() == Run(reg.cfg, old(reg.View()), trace)
              && (configured ==> PickedByWeight(reg.cfg, old(reg.View()), trace, own, ups, sel))
              && Settled(reg.cfg, old(reg.View()), trace, own, sel, ReportOf(exit, resp))
  {
    hide PickedByWeight, Run, Step, PickedLast, Paired;
    ghost var r0 := if reg != null then reg.View() else EmptyRegistry;
    sel, trace, own := None, [], [];
    NothingYet(reg, r0);
    if !configured {
      return ModelNotFound, sel, trace, own;
    }
    var blocked;
    sel, blocked, trace, own := PickHealthy(ups, reg, env);
    if blocked {
      return Unavailable, sel, trace, own;
    }
    ghost var picked, mine := trace, own;
    if !bodyRead {
      trace, own := ReleaseBreaker(sel, reg, env, r0, trace, own);
      PickKept(reg, r0, picked, trace, mine, own, ups, sel);
      return BodyUnread, sel, trace, own;
    }
    if !built {
      trace, own := ReleaseBreaker(sel, reg, env, r0, trace, own);
      PickKept(reg, r0, picked, trace, mine, own, ups, sel);
      return NotBuilt, sel, trace, own;
    }
    trace, own := RecordBreaker(sel, reg, resp, env, r0, trace, own);
    PickKept(reg, r0, picked, trace, mine, own, ups, sel);
    return Forwarded, sel, trace, own;
  }
}
