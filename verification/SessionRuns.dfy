/** The lazily swept session table answers like one that never forgets and only asks whether a session is live. */
module SessionRuns {
  import opened Common
  import opened Sessions

  // ----- The reference: nothing is ever dropped for its age -----

  /** A session answers its owner as long as it was last answered no more than the time to live ago. */
  function Ask(m: map<string, Session>, ttl: int, e: Event): Option<Session>
    requires e.Get?
  {
    if e.id !in m || !Owned(m[e.id], e.serverId, e.apiKeyId) then None
    else if e.now - m[e.id].lastSeen <= ttl then Some(m[e.id].(lastSeen := e.now))
    else None
  }

  function Remember(m: map<string, Session>, ttl: int, e: Event): map<string, Session> {
    match e
    case Create(id, agent, server, key, now) => m[id := Session(agent, server, key, "", now)]
    case Get(id, _, _, _, _) => var s := Ask(m, ttl, e); if s.Some? then m[id := s.value] else m
    case SetUpstream(id, upstream) => if id in m then m[id := m[id].(upstreamId := upstream)] else m
    case Delete(id) => m - {id}
  }

  // ----- Runs -----

  function Run(t: Table, ttl: int, es: seq<Event>): Table {
    if es == [] then t else Step(Run(t, ttl, es[..|es| - 1]), ttl, es[|es| - 1]).t
  }

  function Memory(m: map<string, Session>, ttl: int, es: seq<Event>): map<string, Session> {
    if es == [] then m else Remember(Memory(m, ttl, es[..|es| - 1]), ttl, es[|es| - 1])
  }

  /** The clock readings of the events, in order, never go back; `now` is at or after the last of them. */
  predicate Monotone(es: seq<Event>, now: int) {
    es == []
    || (var e := es[|es| - 1];
        var before := es[..|es| - 1];
        match e
        case Create(_, _, _, _, at) => at <= now && Monotone(before, at)
        case Get(_, _, _, sweep, at) => sweep <= at <= now && Monotone(before, sweep)
        case _ => Monotone(before, now))
  }

  /** The table holds what the reference holds, but for expired sessions. */
  predicate Agrees(t: Table, m: map<string, Session>, ttl: int, now: int) {
    && (forall k :: k in t.sessions ==> k in m && m[k] == t.sessions[k])
    && (forall k :: k in m && k !in t.sessions ==> Expired(m[k], ttl, now))
  }

  lemma CountingAgrees(t: Table, m: map<string, Session>, ttl: int, sweep: int)
    requires Agrees(t, m, ttl, sweep)
    ensures Agrees(Counted(t, ttl, sweep), m, ttl, sweep)
  {
  }

  /** Every lookup is answered alike. */
  lemma LookUpAgrees(t: Table, m: map<string, Session>, ttl: int, e: Event)
    requires e.Get? && e.sweep <= e.now && Agrees(t, m, ttl, e.sweep)
    ensures Step(t, ttl, e).answer == Ask(m, ttl, e)
    ensures Agrees(Step(t, ttl, e).t, Remember(m, ttl, e), ttl, e.now)
  {
    hide Counted;
    CountingAgrees(t, m, ttl, e.sweep);
  }

  lemma {:induction false} RunsAgree(ttl: int, es: seq<Event>, now: int)
    requires Monotone(es, now)
    ensures Agrees(Run(Table(map[], 0), ttl, es), Memory(map[], ttl, es), ttl, now)
  {
    hide Counted, LookUp, Ask;
    if es != [] {
      var before, e := es[..|es| - 1], es[|es| - 1];
      match e
      case Get(_, _, _, sweep, _) =>
        RunsAgree(ttl, before, sweep);
        LookUpAgrees(Run(Table(map[], 0), ttl, before), Memory(map[], ttl, before), ttl, e);
      case Create(_, _, _, _, at) => RunsAgree(ttl, before, at);
      case _ => RunsAgree(ttl, before, now);
    }
  }

  /**
    * On every run with a monotone clock, each lookup is answered as by a table that never sweeps and calls a
    * session live while no more than the time to live has passed since it was last answered. The identifiers
    * need not be fresh.
    */
  lemma SweepingIsUnseen(ttl: int, es: seq<Event>, e: Event)
    requires e.Get? && Monotone(es + [e], e.now)
    ensures Step(Run(Table(map[], 0), ttl, es), ttl, e).answer == Ask(Memory(map[], ttl, es), ttl, e)
  {
    hide Step, Ask;
    assert (es + [e])[..|es|] == es;
    RunsAgree(ttl, es, e.sweep);
    LookUpAgrees(Run(Table(map[], 0), ttl, es), Memory(map[], ttl, es), ttl, e);
  }

  // ----- A session through its history -----

  /** The lookups that answered, and the creation, since the id was last created: when the session was last seen. */
  function LastAnswered(ttl: int, es: seq<Event>, id: string): Option<int> {
    if es == [] then None
    else
      var before, e := es[..|es| - 1], es[|es| - 1];
      var last := LastAnswered(ttl, before, id);
      if e.id != id || e.SetUpstream? then last
      else if e.Create? then Some(e.now)
      else if e.Delete? then None
      else if last.Some? && e.now - last.value <= ttl
          && OwnerOf(before, id) == Some((e.serverId, e.apiKeyId)) then Some(e.now)
      else last
  }

  /** Who created the session, unless it was deleted since. */
  function OwnerOf(es: seq<Event>, id: string): Option<(string, string)> {
    if es == [] then None
    else
      var e := es[|es| - 1];
      if e.id == id && e.Create? then Some((e.serverId, e.apiKeyId))
      else if e.id == id && e.Delete? then None
      else OwnerOf(es[..|es| - 1], id)
  }

  lemma {:induction false} MemoryIsHistory(ttl: int, es: seq<Event>, id: string)
    ensures var m := Memory(map[], ttl, es);
            && (id in m <==> OwnerOf(es, id).Some?) && (id in m <==> LastAnswered(ttl, es, id).Some?)
            && (id in m ==>
                  && OwnerOf(es, id) == Some((m[id].serverId, m[id].apiKeyId))
                  && LastAnswered(ttl, es, id) == Some(m[id].lastSeen))
  {
    if es != [] {
      MemoryIsHistory(ttl, es[..|es| - 1], id);
    }
  }

  /**
    * A lookup is answered exactly when the id was created for this server and key, not deleted since, and
    * every pause between answered lookups, from the creation to now, was within the time to live.
    */
  lemma AnsweredIff(ttl: int, es: seq<Event>, e: Event)
    requires e.Get? && Monotone(es + [e], e.now)
    ensures Step(Run(Table(map[], 0), ttl, es), ttl, e).answer.Some? <==>
            var last := LastAnswered(ttl, es, e.id);
            OwnerOf(es, e.id) == Some((e.serverId, e.apiKeyId)) && last.Some? && e.now - last.value <= ttl
  {
    hide Step;
    SweepingIsUnseen(ttl, es, e);
    MemoryIsHistory(ttl, es, e.id);
  }

  // ----- What an answer says -----

  /** The caller that created the session, and the upstream id bound since, if any. */
  function AgentOf(es: seq<Event>, id: string): string {
    if es == [] then ""
    else
      var e := es[|es| - 1];
      if e.id == id && e.Create? then e.callerAgent else AgentOf(es[..|es| - 1], id)
  }

  function BoundTo(es: seq<Event>, id: string): string {
    if es == [] then ""
    else
      var e := es[|es| - 1];
      if e.id == id && e.SetUpstream? then e.upstreamId
      else if e.id == id && e.Create? then ""
      else BoundTo(es[..|es| - 1], id)
  }

  lemma {:induction false} MemorySays(ttl: int, es: seq<Event>, id: string)
    ensures var m := Memory(map[], ttl, es);
            id in m ==> m[id].callerAgent == AgentOf(es, id) && m[id].upstreamId == BoundTo(es, id)
  {
    if es != [] {
      MemorySays(ttl, es[..|es| - 1], id);
    }
  }

  /** Every answer names the creating caller, server and key, the upstream id bound since, and the time of the lookup. */
  lemma AnswerSays(ttl: int, es: seq<Event>, e: Event)
    requires e.Get? && Monotone(es + [e], e.now)
    ensures var answer := Step(Run(Table(map[], 0), ttl, es), ttl, e).answer;
            answer.Some? ==>
              answer.value == Session(AgentOf(es, e.id), e.serverId, e.apiKeyId, BoundTo(es, e.id), e.now)
  {
    hide Step, AgentOf, BoundTo;
    SweepingIsUnseen(ttl, es, e);
    MemorySays(ttl, es, e.id);
  }
}
