/** Breaker-aware picking of an upstream (pkg/core/proxy.go, pickHealthy). */
module Picking {
  import opened Common
  import opened Breaker
  import opened BreakerRuns
  import opened Upstreams

  predicate Usable(u: Upstream) {
    u.enabled && !u.keyUnreadable
  }

  /** This event, at this point of the run, is a granted Allow for `id`. */
  predicate Grants(cfg: Config, r: Registry, es: seq<Event>, p: int, id: string) {
    0 <= p < |es| && es[p].Call? && es[p].id == id && es[p].op == AllowOp
    && Step(cfg, Run(cfg, r, es[..p]), es[p]).ok
  }

  predicate Increasing(own: seq<nat>) {
    forall i, j :: 0 <= i < j < |own| ==> own[i] < own[j]
  }

  /** The request's own calls so far took nothing: they asked, or were refused. */
  ghost predicate TookNothing(cfg: Config, r: Registry, es: seq<Event>, own: seq<nat>) {
    Increasing(own) && forall j :: 0 <= j < |own| ==>
      own[j] < |es| && es[own[j]].Call?
      && (es[own[j]].op == SelectableOp
          || (es[own[j]].op == AllowOp && !Grants(cfg, r, es, own[j], es[own[j]].id)))
  }

  /** This event, at this point of the run, is such a call for `id`, and is answered so. */
  predicate AnswerAt(cfg: Config, r: Registry, es: seq<Event>, p: int, id: string, op: Op, ok: bool) {
    0 <= p < |es| && es[p].Call? && es[p].id == id && es[p].op == op
    && Step(cfg, Run(cfg, r, es[..p]), es[p]).ok == ok
  }

  /** One of the request's own calls is such a call for `id`, and is answered so. */
  ghost predicate Answered(cfg: Config, r: Registry, es: seq<Event>, own: seq<nat>, id: string, op: Op, ok: bool) {
    exists j :: 0 <= j < |own| && AnswerAt(cfg, r, es, own[j], id, op, ok)
  }

  lemma AnsweredExtends(
    cfg: Config, r: Registry, es: seq<Event>, es': seq<Event>, own: seq<nat>, own': seq<nat>,
    id: string, op: Op, ok: bool)
    requires Answered(cfg, r, es, own, id, op, ok) && es <= es' && own <= own'
    ensures Answered(cfg, r, es', own', id, op, ok)
  {
    hide Step, Run;
    var j :| 0 <= j < |own| && AnswerAt(cfg, r, es, own[j], id, op, ok);
    assert es'[..own[j]] == es[..own[j]];
    assert AnswerAt(cfg, r, es', own'[j], id, op, ok);
  }

  lemma {:induction false} TookNothingExtends(cfg: Config, r: Registry, es: seq<Event>, more: seq<Event>, own: seq<nat>)
    requires TookNothing(cfg, r, es, own)
    ensures TookNothing(cfg, r, es + more, own)
  {
    forall j | 0 <= j < |own|
      ensures own[j] < |es + more| && (es + more)[own[j]].Call?
              && ((es + more)[own[j]].op == SelectableOp
                  || ((es + more)[own[j]].op == AllowOp && !Grants(cfg, r, es + more, own[j], (es + more)[own[j]].id)))
    {
      assert (es + more)[..own[j]] == es[..own[j]];
    }
  }

  function Without(ups: seq<Upstream>, id: string): seq<Upstream> {
    if ups == [] then []
    else
      var u := ups[|ups| - 1];
      Without(ups[..|ups| - 1], id) + (if u.id != id then [u] else [])
  }

  lemma {:induction false} WithoutLosesIt(ups: seq<Upstream>, id: string)
    ensures forall u :: u in Without(ups, id) <==> u in ups && u.id != id
    ensures |Without(ups, id)| <= |ups|
    ensures (exists u :: u in ups && u.id == id) ==> |Without(ups, id)| < |ups|
  {
    if ups != [] {
      WithoutLosesIt(ups[..|ups| - 1], id);
      assert ups == ups[..|ups| - 1] + [ups[|ups| - 1]];
    }
  }

  method RemoveId(ups: seq<Upstream>, id: string) returns (next: seq<Upstream>)
    ensures next == Without(ups, id)
  {
    next := [];
    for i := 0 to |ups|
      invariant next == Without(ups[..i], id)
    {
      assert ups[..i + 1][..i] == ups[..i];
      if ups[i].id != id {
        next := next + [ups[i]];
      }
    }
    assert ups[..|ups|] == ups;
  }

  /** The candidates that are left once these have refused. */
  function WithoutAll(ups: seq<Upstream>, ids: seq<string>): seq<Upstream> {
    if ids == [] then ups else Without(WithoutAll(ups, ids[..|ids| - 1]), ids[|ids| - 1])
  }

  lemma {:induction false} WithoutAllKeeps(ups: seq<Upstream>, ids: seq<string>)
    ensures forall u :: u in WithoutAll(ups, ids) <==> u in ups && u.id !in ids
  {
    if ids != [] {
      WithoutAllKeeps(ups, ids[..|ids| - 1]);
      WithoutLosesIt(WithoutAll(ups, ids[..|ids| - 1]), ids[|ids| - 1]);
      assert ids == ids[..|ids| - 1] + [ids[|ids| - 1]];
    }
  }

  /** The entries that were answered yes, in order. */
  function Kept(ups: seq<Upstream>, yes: seq<bool>): seq<Upstream>
    requires |yes| == |ups|
  {
    if ups == [] then []
    else
      var n := |ups| - 1;
      Kept(ups[..n], yes[..n]) + (if yes[n] then [ups[n]] else [])
  }

  lemma {:induction false} KeptOnes(ups: seq<Upstream>, yes: seq<bool>)
    requires |yes| == |ups|
    ensures forall u :: u in Kept(ups, yes) ==> exists i :: 0 <= i < |ups| && ups[i] == u && yes[i]
    ensures forall i :: 0 <= i < |ups| && yes[i] ==> ups[i] in Kept(ups, yes)
  {
    if ups != [] {
      var n := |ups| - 1;
      KeptOnes(ups[..n], yes[..n]);
    }
  }

  /** The request has asked whether each usable entry so far may take part, and `yes` holds the answers. */
  ghost predicate Polled(cfg: Config, r: Registry, es: seq<Event>, own: seq<nat>, ups: seq<Upstream>, yes: seq<bool>) {
    && |yes| <= |ups|
    && forall i :: 0 <= i < |yes| ==>
         if Usable(ups[i]) then Answered(cfg, r, es, own, ups[i].id, SelectableOp, yes[i]) else !yes[i]
  }

  ghost predicate Refused(cfg: Config, r: Registry, es: seq<Event>, own: seq<nat>, ids: seq<string>) {
    forall id :: id in ids ==> Answered(cfg, r, es, own, id, AllowOp, false)
  }

  lemma PollExtends(
    cfg: Config, r: Registry, es: seq<Event>, es': seq<Event>, own: seq<nat>, own': seq<nat>,
    ups: seq<Upstream>, yes: seq<bool>, ids: seq<string>)
    requires Polled(cfg, r, es, own, ups, yes) && Refused(cfg, r, es, own, ids) && es <= es' && own <= own'
    ensures Polled(cfg, r, es', own', ups, yes) && Refused(cfg, r, es', own', ids)
  {
    hide Answered;
    forall i | 0 <= i < |yes| && Usable(ups[i]) ensures Answered(cfg, r, es', own', ups[i].id, SelectableOp, yes[i]) {
      AnsweredExtends(cfg, r, es, es', own, own', ups[i].id, SelectableOp, yes[i]);
    }
    forall id | id in ids ensures Answered(cfg, r, es', own', id, AllowOp, false) {
      AnsweredExtends(cfg, r, es, es', own, own', id, AllowOp, false);
    }
  }

  /**
    * The pick is the weighted choice, for some draw, among the entries whose breaker would take the request,
    * less those that then refused it; there is none only when nothing is left.
    */
  ghost predicate PickedByWeight(
    cfg: Config, r: Registry, es: seq<Event>, own: seq<nat>, ups: seq<Upstream>, sel: Option<Upstream>) {
    exists yes, refused, draw ::
      && |yes| == |ups| && Polled(cfg, r, es, own, ups, yes) && Refused(cfg, r, es, own, refused)
      && sel == Selected(WithoutAll(Kept(ups, yes), refused), draw)
  }

  lemma PickExtends(
    cfg: Config, r: Registry, es: seq<Event>, es': seq<Event>, own: seq<nat>, own': seq<nat>,
    ups: seq<Upstream>, sel: Option<Upstream>)
    requires PickedByWeight(cfg, r, es, own, ups, sel) && es <= es' && own <= own'
    ensures PickedByWeight(cfg, r, es', own', ups, sel)
  {
    hide Polled, Refused, Selected, WithoutAll, Kept;
    var yes, refused, draw :|
      && |yes| == |ups| && Polled(cfg, r, es, own, ups, yes) && Refused(cfg, r, es, own, refused)
      && sel == Selected(WithoutAll(Kept(ups, yes), refused), draw);
    PollExtends(cfg, r, es, es', own, own', ups, yes, refused);
  }

  /** Nothing is picked only when every usable upstream's breaker has refused, when asked or at the attempt. */
  lemma NoPickMeansRefused(
    cfg: Config, r: Registry, es: seq<Event>, own: seq<nat>, ups: seq<Upstream>, u: Upstream)
    requires PickedByWeight(cfg, r, es, own, ups, None) && u in ups && Usable(u)
    ensures Answered(cfg, r, es, own, u.id, SelectableOp, false) || Answered(cfg, r, es, own, u.id, AllowOp, false)
  {
    hide Answered, WithoutAll, Kept, Chosen;
    var yes, refused, draw :|
      && |yes| == |ups| && Polled(cfg, r, es, own, ups, yes) && Refused(cfg, r, es, own, refused)
      && None == Selected(WithoutAll(Kept(ups, yes), refused), draw);
    var i :| 0 <= i < |ups| && ups[i] == u;
    KeptOnes(ups, yes);
    WithoutAllKeeps(Kept(ups, yes), refused);
    assert EnabledOnly(WithoutAll(Kept(ups, yes), refused)) == [];
    assert u !in EnabledOnly(WithoutAll(Kept(ups, yes), refused));
  }

  /** The registry is where the trace leads, and the request's own calls in it took nothing. */
  ghost predicate Waiting(cfg: Config, r0: Registry, r: Registry, trace: seq<Event>, own: seq<nat>) {
    r == Run(cfg, r0, trace) && TookNothing(cfg, r0, trace, own)
  }

  lemma {:induction false} WaitingForOthers(
    cfg: Config, r0: Registry, r: Registry, trace: seq<Event>, own: seq<nat>, more: seq<Event>)
    requires Waiting(cfg, r0, r, trace, own)
    ensures Waiting(cfg, r0, Run(cfg, r, more), trace + more, own)
  {
    RunAppend(cfg, r0, trace, more);
    TookNothingExtends(cfg, r0, trace, more, own);
  }

  /** One own call more: unless it is a granted Allow it took nothing either. */
  lemma {:induction false} OwnCall(cfg: Config, r0: Registry, r: Registry, trace: seq<Event>, own: seq<nat>, e: Event)
    requires Waiting(cfg, r0, r, trace, own) && e.Call?
    requires e.op == SelectableOp || e.op == AllowOp
    ensures Run(cfg, r0, trace + [e]) == Step(cfg, r, e).reg
    ensures TookNothing(cfg, r0, trace + [e], own)
    ensures Increasing(own + [|trace|])
    ensures AnswerAt(cfg, r0, trace + [e], |trace|, e.id, e.op, Step(cfg, r, e).ok)
    ensures if e.op == AllowOp && Step(cfg, r, e).ok then Grants(cfg, r0, trace + [e], |trace|, e.id)
            else Waiting(cfg, r0, Step(cfg, r, e).reg, trace + [e], own + [|trace|])
  {
    hide Step, Run;
    RunSnoc(cfg, r0, trace, e);
    TookNothingExtends(cfg, r0, trace, [e], own);
    assert (trace + [e])[..|trace|] == trace;
  }

  /** What other requests do between two of ours, when our calls read the clock, and the random draws. */
  datatype Surroundings = Surroundings(others: nat -> seq<Event>, clocks: nat -> Clock, draws: nat -> nat)

  /** The entries that may take part, asked one by one. */
  method AskSelectable(ups: seq<Upstream>, reg: BreakerRegistry, env: Surroundings)
    returns (available: seq<Upstream>, trace: seq<Event>, own: seq<nat>, ghost yes: seq<bool>)
    requires reg.Valid()
    modifies reg, reg.states.Values
    ensures reg.Valid() && Waiting(reg.cfg, old(reg.View()), reg.View(), trace, own)
    ensures forall o :: o in reg.states.Values ==> o in old(reg.states.Values) || fresh(o)
    ensures |yes| == |ups| && Polled(reg.cfg, old(reg.View()), trace, own, ups, yes) && available == Kept(ups, yes)
  {
    ghost var r0 := reg.View();
    available, trace, own, yes := [], [], [], [];
    assert Waiting(reg.cfg, r0, reg.View(), trace, own);
    hide Waiting, Step, Run, Polled, Refused, AnswerAt, Answered;
    NothingPolled(reg.cfg, r0, ups);
    for i := 0 to |ups|
      invariant reg.Valid() && Waiting(reg.cfg, r0, reg.View(), trace, own)
      invariant forall o :: o in reg.states.Values ==> o in old(reg.states.Values) || fresh(o)
      invariant |yes| == i && Polled(reg.cfg, r0, trace, own, ups, yes) && available == Kept(ups[..i], yes)
    {
      ghost var trace0, own0 := trace, own;
      var ok := false;
      if ups[i].enabled && !ups[i].keyUnreadable {
        ok, trace, own := AskOne(ups[i].id, reg, env, i, r0, trace, own);
      }
      PolledNext(reg.cfg, r0, trace0, trace, own0, own, ups, yes, ok);
      yes := yes + [ok];
      assert yes[..i] == yes[..|yes| - 1] && ups[..i + 1][..i] == ups[..i];
      if ok {
        available := available + [ups[i]];
      }
    }
    assert ups[..|ups|] == ups;
  }

  lemma NothingPolled(cfg: Config, r: Registry, ups: seq<Upstream>)
    ensures Polled(cfg, r, [], [], ups, [])
  {
  }

  lemma PolledNext(
    cfg: Config, r: Registry, es: seq<Event>, es': seq<Event>, own: seq<nat>, own': seq<nat>,
    ups: seq<Upstream>, yes: seq<bool>, ok: bool)
    requires |yes| < |ups| && Polled(cfg, r, es, own, ups, yes) && es <= es' && own <= own'
    requires if Usable(ups[|yes|]) then Answered(cfg, r, es', own', ups[|yes|].id, SelectableOp, ok) else !ok
    ensures Polled(cfg, r, es', own', ups, yes + [ok])
  {
    hide Answered;
    PollExtends(cfg, r, es, es', own, own', ups, yes, []);
  }

  /** Asks for one upstream, after whatever others do first. */
  method AskOne(id: string, reg: BreakerRegistry, env: Surroundings, n: nat,
                ghost r0: Registry, trace0: seq<Event>, own0: seq<nat>)
    returns (ok: bool, trace: seq<Event>, own: seq<nat>)
    requires reg.Valid() && Waiting(reg.cfg, r0, reg.View(), trace0, own0)
    modifies reg, reg.states.Values
    ensures reg.Valid() && Waiting(reg.cfg, r0, reg.View(), trace, own)
    ensures forall o :: o in reg.states.Values ==> o in old(reg.states.Values) || fresh(o)
    ensures trace0 <= trace && own0 <= own && Answered(reg.cfg, r0, trace, own, id, SelectableOp, ok)
  {
    hide Waiting, Step, Run, AnswerAt;
    WaitingForOthers(reg.cfg, r0, reg.View(), trace0, own0, env.others(n));
    reg.Replay(env.others(n));
    trace := trace0 + env.others(n);
    OwnCall(reg.cfg, r0, reg.View(), trace, own0, Call(id, SelectableOp, env.clocks(n)));
    ok := reg.SelectableUpstream(id, env.clocks(n));
    own := own0 + [|trace|];
    trace := trace + [Call(id, SelectableOp, env.clocks(n))];
    assert own[|own0|] == |trace| - 1;
  }

  /** One Allow for `id`, after whatever others do first. */
  method TryAllow(id: string, reg: BreakerRegistry, env: Surroundings,
                  ghost r0: Registry, trace0: seq<Event>, own0: seq<nat>)
    returns (ok: bool, trace: seq<Event>, own: seq<nat>)
    requires reg.Valid() && Waiting(reg.cfg, r0, reg.View(), trace0, own0)
    modifies reg, reg.states.Values
    ensures reg.Valid() && reg.View() == Run(reg.cfg, r0, trace)
    ensures forall o :: o in reg.states.Values ==> o in old(reg.states.Values) || fresh(o)
    ensures trace0 <= trace && own0 <= own && Answered(reg.cfg, r0, trace, own, id, AllowOp, ok)
    ensures if ok then PickedLast(reg.cfg, r0, trace, own, id) else Waiting(reg.cfg, r0, reg.View(), trace, own)
  {
    hide Waiting, Step, Run, Grants, TookNothing, AnswerAt;
    var clock := env.clocks(|trace0|);
    WaitingForOthers(reg.cfg, r0, reg.View(), trace0, own0, env.others(|trace0|));
    reg.Replay(env.others(|trace0|));
    trace := trace0 + env.others(|trace0|);
    OwnCall(reg.cfg, r0, reg.View(), trace, own0, Call(id, AllowOp, clock));
    ok := reg.AllowUpstream(id, clock);
    own := own0 + [|trace|];
    trace := trace + [Call(id, AllowOp, clock)];
    assert own[..|own| - 1] == own0 && own[|own0|] == |trace| - 1;
  }

  lemma SomeIsSelected(available: seq<Upstream>, draw: nat)
    requires |available| > 0 && forall c :: c in available ==> c.enabled
    ensures Selected(available, draw).Some? && Selected(available, draw).value in available
  {
    hide Chosen;
    assert available[0] in available;
    assert available[0] in EnabledOnly(available);
  }

  /** Select, then take a slot; a refused choice leaves the candidates and another is drawn. */
  method TakeOne(ups: seq<Upstream>, reg: BreakerRegistry, env: Surroundings,
                 ghost r0: Registry, trace0: seq<Event>, own0: seq<nat>)
    returns (sel: Option<Upstream>, trace: seq<Event>, own: seq<nat>, ghost refused: seq<string>, ghost draw: nat)
    requires reg.Valid() && Waiting(reg.cfg, r0, reg.View(), trace0, own0)
    requires forall u :: u in ups ==> Usable(u)
    modifies reg, reg.states.Values
    ensures reg.Valid() && reg.View() == Run(reg.cfg, r0, trace)
    ensures forall o :: o in reg.states.Values ==> o in old(reg.states.Values) || fresh(o)
    ensures sel.Some? ==> sel.value in ups && PickedLast(reg.cfg, r0, trace, own, sel.value.id)
    ensures sel.None? ==> TookNothing(reg.cfg, r0, trace, own)
    ensures trace0 <= trace && own0 <= own
    ensures Refused(reg.cfg, r0, trace, own, refused) && sel == Selected(WithoutAll(ups, refused), draw)
  {
    var available := ups;
    trace, own, refused, draw := trace0, own0, [], 0;
    assert Refused(reg.cfg, r0, trace, own, refused);
    while |available| > 0
      invariant reg.Valid() && Waiting(reg.cfg, r0, reg.View(), trace, own)
      invariant forall o :: o in reg.states.Values ==> o in old(reg.states.Values) || fresh(o)
      invariant forall u :: u in available ==> u in ups && Usable(u)
      invariant trace0 <= trace && own0 <= own && available == WithoutAll(ups, refused)
      invariant Refused(reg.cfg, r0, trace, own, refused)
      decreases |available|
    {
      hide Step, Run, TookNothing, PickedLast, Waiting, Selected, Refused, Answered;
      SomeIsSelected(available, env.draws(|trace|));
      var u := SelectUpstream(available, env.draws(|trace|));
      draw := env.draws(|trace|);
      ghost var trace1, own1 := trace, own;
      var ok;
      ok, trace, own := TryAllow(u.value.id, reg, env, r0, trace, own);
      StillRefused(reg.cfg, r0, trace1, trace, own1, own, refused);
      if ok {
        return u, trace, own, refused, draw;
      }
      WithoutLosesIt(available, u.value.id);
      available := RemoveId(available, u.value.id);
      RefusedToo(reg.cfg, r0, trace, own, refused, u.value.id);
      assert (refused + [u.value.id])[..|refused|] == refused;
      refused := refused + [u.value.id];
    }
    sel := None;
  }

  lemma StillRefused(
    cfg: Config, r: Registry, es: seq<Event>, es': seq<Event>, own: seq<nat>, own': seq<nat>, ids: seq<string>)
    requires Refused(cfg, r, es, own, ids) && es <= es' && own <= own'
    ensures Refused(cfg, r, es', own', ids)
  {
    PollExtends(cfg, r, es, es', own, own', [], [], ids);
  }

  lemma RefusedToo(cfg: Config, r: Registry, es: seq<Event>, own: seq<nat>, ids: seq<string>, id: string)
    requires Refused(cfg, r, es, own, ids) && Answered(cfg, r, es, own, id, AllowOp, false)
    ensures Refused(cfg, r, es, own, ids + [id])
  {
  }

  /** The request's last call is the trace's last event, a granted Allow for `id`; its other calls took nothing. */
  ghost predicate PickedLast(cfg: Config, r0: Registry, trace: seq<Event>, own: seq<nat>, id: string) {
    && |own| > 0 && own[|own| - 1] == |trace| - 1 && Increasing(own)
    && TookNothing(cfg, r0, trace, own[..|own| - 1])
    && Grants(cfg, r0, trace, |trace| - 1, id)
  }

  /** The entries that are enabled and have a readable key. */
  function Usables(ups: seq<Upstream>): seq<Upstream> {
    if ups == [] then []
    else
      var u := ups[|ups| - 1];
      Usables(ups[..|ups| - 1]) + (if Usable(u) then [u] else [])
  }

  lemma {:induction false} UsablesAre(ups: seq<Upstream>)
    ensures forall u :: u in Usables(ups) <==> u in ups && Usable(u)
  {
    if ups != [] {
      UsablesAre(ups[..|ups| - 1]);
      assert ups == ups[..|ups| - 1] + [ups[|ups| - 1]];
    }
  }

  /** With nothing usable there is nothing to ask and nothing to pick. */
  lemma NoneUsable(cfg: Config, r: Registry, ups: seq<Upstream>)
    requires forall u :: u in ups ==> !Usable(u)
    ensures PickedByWeight(cfg, r, [], [], ups, None)
  {
    hide Chosen;
    var yes := seq(|ups|, i => false);
    NoneKept(ups, yes);
    assert Polled(cfg, r, [], [], ups, yes) && Refused(cfg, r, [], [], []);
    assert Selected(WithoutAll(Kept(ups, yes), []), 0) == None;
  }

  lemma {:induction false} NoneKept(ups: seq<Upstream>, yes: seq<bool>)
    requires |yes| == |ups| && forall i :: 0 <= i < |yes| ==> !yes[i]
    ensures Kept(ups, yes) == []
  {
    if ups != [] {
      NoneKept(ups[..|ups| - 1], yes[..|ups| - 1]);
    }
  }

  /** Only usable entries are ever kept. */
  lemma KeptAreUsable(cfg: Config, r: Registry, es: seq<Event>, own: seq<nat>, ups: seq<Upstream>, yes: seq<bool>)
    requires |yes| == |ups| && Polled(cfg, r, es, own, ups, yes)
    ensures forall u :: u in Kept(ups, yes) ==> u in ups && Usable(u)
  {
    hide Answered, Kept;
    KeptOnes(ups, yes);
  }

  /**
    * pkg/core/proxy.go, pickHealthy. It ends; it has been granted one Allow, its last call, exactly
    * when it returns an upstream of the registry's, and has taken nothing otherwise. The events of
    * other requests fall between its calls in any way.
    */
  method PickHealthy(ups: seq<Upstream>, reg: BreakerRegistry?, env: Surroundings)
    returns (sel: Option<Upstream>, blocked: bool, trace: seq<Event>, own: seq<nat>)
    requires reg != null ==> reg.Valid()
    modifies reg, if reg != null then reg.states.Values else {}
    ensures sel.Some? ==> sel.value in ups && sel.value.enabled && !sel.value.keyUnreadable && !blocked
    ensures sel.None? && !blocked <==> !exists u :: u in ups && u.enabled && !u.keyUnreadable
    ensures reg == null ==> trace == [] && !blocked && sel == Selected(Usables(ups), env.draws(0))
    ensures reg != null ==>
              && reg.Valid() && reg.View() == Run(reg.cfg, old(reg.View()), trace)
              && (forall o :: o in reg.states.Values ==> o in old(reg.states.Values) || fresh(o))
              && PickedByWeight(reg.cfg, old(reg.View()), trace, own, ups, sel)
              && (if sel.Some? then PickedLast(reg.cfg, old(reg.View()), trace, own, sel.value.id)
                  else TookNothing(reg.cfg, old(reg.View()), trace, own))
  {
    hide Selected, Polled, Refused, Kept;
    sel, blocked, trace, own := None, false, [], [];
    var hasEnabled := HasUsable(ups);
    if !hasEnabled {
      UsablesAre(ups);
      NoneSelected(ups, env.draws(0));
      if reg != null {
        NoneUsable(reg.cfg, reg.View(), ups);
      }
      return;
    }
    if reg == null {
      var usable := UsableOnly(ups);
      UsablesAre(ups);
      SomeIsSelected(usable, env.draws(0));
      sel := SelectUpstream(usable, env.draws(0));
      return;
    }
    sel, trace, own := PickAmong(ups, reg, env);
    blocked := sel.None?;
  }

  lemma NoneSelected(ups: seq<Upstream>, draw: nat)
    requires forall u :: u in ups ==> !Usable(u)
    ensures Selected(Usables(ups), draw) == None
  {
    hide Chosen;
    UsablesAre(ups);
    assert Usables(ups) == [] || Usables(ups)[0] in Usables(ups);
  }

  /** Asks every usable entry, then takes one of those that may. */
  method PickAmong(ups: seq<Upstream>, reg: BreakerRegistry, env: Surroundings)
    returns (sel: Option<Upstream>, trace: seq<Event>, own: seq<nat>)
    requires reg.Valid()
    modifies reg, reg.states.Values
    ensures sel.Some? ==> sel.value in ups && Usable(sel.value)
    ensures reg.Valid() && reg.View() == Run(reg.cfg, old(reg.View()), trace)
    ensures forall o :: o in reg.states.Values ==> o in old(reg.states.Values) || fresh(o)
    ensures PickedByWeight(reg.cfg, old(reg.View()), trace, own, ups, sel)
    ensures if sel.Some? then PickedLast(reg.cfg, old(reg.View()), trace, own, sel.value.id)
            else TookNothing(reg.cfg, old(reg.View()), trace, own)
  {
    hide Selected, Polled, Refused, Kept, Run, TookNothing, PickedLast, WithoutAll;
    ghost var r0, yes, refused, draw := reg.View(), [], [], 0;
    var available;
    available, trace, own, yes := AskSelectable(ups, reg, env);
    KeptAreUsable(reg.cfg, r0, trace, own, ups, yes);
    ghost var asked, mine := trace, own;
    sel, trace, own, refused, draw := TakeOne(available, reg, env, r0, trace, own);
    NoneRefused(reg.cfg, r0, asked, mine);
    PollExtends(reg.cfg, r0, asked, trace, mine, own, ups, yes, []);
  }

  lemma NoneRefused(cfg: Config, r: Registry, es: seq<Event>, own: seq<nat>)
    ensures Refused(cfg, r, es, own, [])
  {
  }

  method HasUsable(ups: seq<Upstream>) returns (found: bool)
    ensures found <==> exists u :: u in ups && Usable(u)
  {
    for i := 0 to |ups|
      invariant forall u :: u in ups[..i] ==> !Usable(u)
    {
      assert ups[..i + 1] == ups[..i] + [ups[i]];
      if ups[i].enabled && !ups[i].keyUnreadable {
        assert ups[i] in ups && Usable(ups[i]);
        return true;
      }
    }
    assert ups[..|ups|] == ups;
    return false;
  }

  method UsableOnly(ups: seq<Upstream>) returns (usable: seq<Upstream>)
    ensures usable == Usables(ups)
    ensures (exists u :: u in ups && Usable(u)) ==> |usable| > 0
  {
    usable := [];
    for i := 0 to |ups|
      invariant usable == Usables(ups[..i])
    {
      assert ups[..i + 1][..i] == ups[..i];
      if ups[i].enabled && !ups[i].keyUnreadable {
        usable := usable + [ups[i]];
      }
    }
    assert ups[..|ups|] == ups;
    UsablesAre(ups);
  }
}
