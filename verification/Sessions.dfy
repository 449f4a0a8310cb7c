/** The gateway's MCP session table with its lazy clean-up (pkg/core/mcp_session.go). Times are nanoseconds. */
module Sessions {
  import opened Common

  datatype Session = Session(callerAgent: string, serverId: string, apiKeyId: string, upstreamId: string, lastSeen: int)

  const SWEEP_EVERY: int := 100

  // ----- The table as a value -----

  datatype Table = Table(sessions: map<string, Session>, visits: int)

  predicate Expired(s: Session, ttl: int, now: int) {
    now - s.lastSeen > ttl
  }

  predicate Owned(s: Session, serverId: string, apiKeyId: string) {
    s.serverId == serverId && s.apiKeyId == apiKeyId
  }

  function Swept(sessions: map<string, Session>, ttl: int, now: int): map<string, Session> {
    map k | k in sessions && !Expired(sessions[k], ttl, now) :: sessions[k]
  }

  datatype Event =
    | Create(id: string, callerAgent: string, serverId: string, apiKeyId: string, now: int)
    | Get(id: string, serverId: string, apiKeyId: string, sweep: int, now: int)
    | SetUpstream(id: string, upstreamId: string)
    | Delete(id: string)

  datatype Outcome = Outcome(t: Table, answer: Option<Session>)

  /** Counting a visit: every 100th drops what has expired. */
  function Counted(t: Table, ttl: int, sweep: int): Table {
    if t.visits + 1 >= SWEEP_EVERY then Table(Swept(t.sessions, ttl, sweep), 0) else t.(visits := t.visits + 1)
  }

  /** Looking a session up: the caller must own it; an expired one is dropped, a live one renewed. */
  function LookUp(t: Table, ttl: int, id: string, serverId: string, apiKeyId: string, now: int): Outcome {
    if id !in t.sessions || !Owned(t.sessions[id], serverId, apiKeyId) then Outcome(t, None)
    else if Expired(t.sessions[id], ttl, now) then Outcome(t.(sessions := t.sessions - {id}), None)
    else
      var renewed := t.sessions[id].(lastSeen := now);
      Outcome(t.(sessions := t.sessions[id := renewed]), Some(renewed))
  }

  function Step(t: Table, ttl: int, e: Event): Outcome {
    match e
    case Create(id, agent, server, key, now) =>
      Outcome(t.(sessions := t.sessions[id := Session(agent, server, key, "", now)]), None)
    case Get(id, server, key, sweep, now) => LookUp(Counted(t, ttl, sweep), ttl, id, server, key, now)
    case SetUpstream(id, upstream) =>
      Outcome(if id in t.sessions then t.(sessions := t.sessions[id := t.sessions[id].(upstreamId := upstream)])
          else t, None)
    case Delete(id) => Outcome(t.(sessions := t.sessions - {id}), None)
  }

  // ----- The table that is updated in place -----

  /** `key` tells the sessions of a table apart. */
  class McpSession {
    ghost const key: string
    const callerAgent: string
    const serverId: string
    const apiKeyId: string
    var upstreamId: string
    var lastSeen: int

    function View(): Session
      reads this
    {
      Session(callerAgent, serverId, apiKeyId, upstreamId, lastSeen)
    }

    constructor (callerAgent: string, serverId: string, apiKeyId: string, now: int, ghost key: string)
      ensures View() == Session(callerAgent, serverId, apiKeyId, "", now) && this.key == key
    {
      this.callerAgent, this.serverId, this.apiKeyId := callerAgent, serverId, apiKeyId;
      upstreamId, lastSeen := "", now;
      this.key := key;
    }
  }

  class SessionStore {
    const ttl: int
    var sessions: map<string, McpSession>
    var visits: int

    ghost predicate Valid()
      reads this
    {
      forall k :: k in sessions ==> sessions[k].key == k
    }

    ghost function View(): Table
      reads this, sessions.Values
    {
      Table(map k | k in sessions :: sessions[k].View(), visits)
    }

    constructor (ttl: int)
      ensures Valid() && View() == Table(map[], 0) && this.ttl == ttl
    {
      this.ttl := ttl;
      sessions, visits := map[], 0;
    }

    /** `id` is the identifier drawn for the new session. */
    method CreateSession(id: string, callerAgent: string, serverId: string, apiKeyId: string, now: int)
      requires Valid()
      modifies this`sessions
      ensures Valid() && View() == Step(old(View()), ttl, Create(id, callerAgent, serverId, apiKeyId, now)).t
      ensures forall o :: o in sessions.Values ==> o in old(sessions.Values) || fresh(o)
    {
      ghost var before := View();
      var s := new McpSession(callerAgent, serverId, apiKeyId, now, id);
      sessions := sessions[id := s];
      assert View().sessions == before.sessions[id := s.View()];
    }

    method SweepExpired(now: int)
      requires Valid()
      modifies this`sessions
      ensures Valid() && sessions.Values <= old(sessions.Values)
      ensures View() == old(View()).(sessions := Swept(old(View()).sessions, ttl, now))
    {
      ghost var all := sessions;
      var keys := sessions.Keys;
      while keys != {}
        invariant keys <= all.Keys
        invariant sessions == map k | k in all && (k in keys || !(now - all[k].lastSeen > ttl)) :: all[k]
      {
        var k :| k in keys;
        if now - sessions[k].lastSeen > ttl {
          sessions := sessions - {k};
        }
        keys := keys - {k};
      }
      assert View().sessions == Swept(old(View()).sessions, ttl, now);
      assert sessions.Values <= all.Values by {
        forall s | s in sessions.Values ensures s in all.Values {
          var k :| k in sessions && sessions[k] == s;
          assert all[k] == s;
        }
      }
    }

    method CountVisit(sweep: int)
      requires Valid()
      modifies this
      ensures Valid() && sessions.Values <= old(sessions.Values)
      ensures View() == Counted(old(View()), ttl, sweep)
    {
      visits := visits + 1;
      if visits >= 100 {
        visits := 0;
        SweepExpired(sweep);
      }
    }

    /** The session as a copy, so that the caller cannot change the stored one. */
    method GetSession(id: string, serverId: string, apiKeyId: string, sweep: int, now: int) returns (r: Option<Session>)
      requires Valid()
      modifies this, sessions.Values
      ensures Valid() && Outcome(View(), r) == Step(old(View()), ttl, Get(id, serverId, apiKeyId, sweep, now))
      ensures sessions.Values <= old(sessions.Values)
    {
      hide Counted;
      CountVisit(sweep);
      ghost var counted := View();
      if id !in sessions {
        return None;
      }
      var s := sessions[id];
      if s.serverId != serverId || s.apiKeyId != apiKeyId {
        return None;
      }
      if now - s.lastSeen > ttl {
        Remove(id);
        return None;
      }
      s.lastSeen := now;
      assert View().sessions == counted.sessions[id := s.View()];
      return Some(s.View());
    }

    method SetUpstreamSession(id: string, upstreamId: string)
      requires Valid()
      modifies sessions.Values
      ensures Valid() && View() == Step(old(View()), ttl, SetUpstream(id, upstreamId)).t
    {
      if id in sessions {
        var s := sessions[id];
        s.upstreamId := upstreamId;
        assert View().sessions == old(View()).sessions[id := s.View()];
      }
    }

    method Remove(id: string)
      requires Valid()
      modifies this`sessions
      ensures Valid() && View() == Step(old(View()), ttl, Delete(id)).t
      ensures sessions.Values <= old(sessions.Values)
    {
      ghost var all := sessions;
      sessions := sessions - {id};
      assert View().sessions == old(View()).sessions - {id};
      assert sessions.Values <= all.Values by {
        forall s | s in sessions.Values ensures s in all.Values {
          var k :| k in sessions && sessions[k] == s;
          assert all[k] == s;
        }
      }
    }
  }
}
