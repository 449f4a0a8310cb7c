/** Which keys the rate limiter still has a limit for, told by the history of its calls. */
module LimitVisits {
  import opened Common
  import opened Limits

  /** Recording no tokens is not a visit. */
  predicate Visits(e: Event) {
    !(e.op.RecordOp? && e.op.tokens <= 0)
  }

  function VisitsIn(es: seq<Event>): nat {
    if es == [] then 0 else VisitsIn(es[..|es| - 1]) + (if Visits(es[|es| - 1]) then 1 else 0)
  }

  /** When the key was last visited, unless some 256th visit came more than an hour after that. */
  function Seen(es: seq<Event>, key: string): Option<real> {
    if es == [] then None
    else
      var before, e := es[..|es| - 1], es[|es| - 1];
      var seen := Seen(before, key);
      if !Visits(e) then seen
      else if e.tenant + "|" + e.model == key then Some(e.now)
      else if VisitsIn(es) % 256 == 0 && seen.Some? && e.now - seen.value > 3600.0 then None
      else seen
  }

  lemma {:induction false} VisitsCounted(configs: seq<Config>, standard: Rule, es: seq<Event>)
    ensures Run(NewLimiter(configs, standard), es).visits == VisitsIn(es) % 256
  {
    hide Found, AllowWith, RecordWith, PeekWith, Swept;
    if es != [] {
      VisitsCounted(configs, standard, es[..|es| - 1]);
    }
  }

  lemma CallKeepsSeen(b: Limit, n: int, now: real)
    ensures AllowWith(b, now).limit.lastSeen == RecordWith(b, n, now).lastSeen == PeekWith(b, now).lastSeen == b.lastSeen
  {
  }

  lemma FoundIsSeen(l: Limiter, tenant: string, model: string, now: real)
    ensures Found(l, tenant, model, now).lastSeen == now
  {
  }

  /** In every run exactly these keys have a limit, each with the time of its last visit. */
  lemma {:induction false} LimitedIffSeen(configs: seq<Config>, standard: Rule, es: seq<Event>, key: string)
    ensures var l := Run(NewLimiter(configs, standard), es);
            && (key in l.limits <==> Seen(es, key).Some?)
            && (key in l.limits ==> l.limits[key].lastSeen == Seen(es, key).value)
  {
    hide Found, AllowWith, RecordWith, PeekWith;
    if es != [] {
      var before, e := es[..|es| - 1], es[|es| - 1];
      var l := Run(NewLimiter(configs, standard), before);
      LimitedIffSeen(configs, standard, before, key);
      VisitsCounted(configs, standard, before);
      var b := Found(Counted(l, e.now), e.tenant, e.model, e.now);
      FoundIsSeen(Counted(l, e.now), e.tenant, e.model, e.now);
      CallKeepsSeen(b, if e.op.RecordOp? then e.op.tokens else 0, e.now);
    }
  }
}
