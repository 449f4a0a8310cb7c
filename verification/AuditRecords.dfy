/** What a saved audit record says, and from which events of the run it has that. */
module AuditRecords {
  import opened Common
  import opened Audit
  import opened AuditRuns

  /** The log with which the request was last opened: the given one, or an empty one under the request's id. */
  function OpenedWith(fn: Option<Log -> string>, es: seq<Event>, id: string): Log {
    if es == [] then Log("", Meta(0, "", 0, 0, 0, 0), [], false, "", "")
    else
      var before, e := es[..|es| - 1], es[|es| - 1];
      if !Opens(Run(Nothing, fn, before), e, id) then OpenedWith(fn, before, id)
      else if e.Submit? && e.given.Some? then e.given.value
      else Log(id, Meta(0, "", 0, 0, 0, 0), [], false, "", "")
  }

  /** A disconnect was reported since the request was opened, or it was opened so. */
  function Marked(fn: Option<Log -> string>, es: seq<Event>, id: string): bool {
    if es == [] then false
    else
      var before, e := es[..|es| - 1], es[|es| - 1];
      if Opens(Run(Nothing, fn, before), e, id) then OpenedWith(fn, es, id).disconnected
      else (e.Disconnect? && e.id == id) || Marked(fn, before, id)
  }

  /** The reply that was reported last since the request was opened; a disconnect's has no body of its own. */
  function Reported(fn: Option<Log -> string>, es: seq<Event>, id: string): Meta {
    if es == [] then Meta(0, "", 0, 0, 0, 0)
    else
      var before, e := es[..|es| - 1], es[|es| - 1];
      if Opens(Run(Nothing, fn, before), e, id) then OpenedWith(fn, es, id).meta
      else if e.Finalize? && e.id == id then e.meta
      else if e.Disconnect? && e.id == id && e.ending.Some? then
        Meta(e.ending.value.status, Reported(fn, before, id).body, e.ending.value.promptTokens,
             e.ending.value.completionTokens, e.ending.value.totalTokens, e.ending.value.duration)
      else Reported(fn, before, id)
  }

  predicate Says(log: Log, fn: Option<Log -> string>, es: seq<Event>, id: string) {
    && log.base == OpenedWith(fn, es, id).base && log.disconnected == Marked(fn, es, id)
    && log.meta == Reported(fn, es, id)
  }

  /** All that a stamp changes is the fingerprint. */
  predicate ButForStamp(a: Log, b: Log) {
    a.(fingerprint := "") == b.(fingerprint := "")
  }

  lemma StoreOnly(s: State, id: string, log: Log, fn: Option<Log -> string>, saves: bool, k: string)
    ensures var after := Store(s, id, log, fn, saves);
            if k == id then if saves then k !in after.pending
                            else k in after.pending && ButForStamp(after.pending[k], log)
            else k in after.pending <==> k in s.pending
    ensures var after := Store(s, id, log, fn, saves);
            k != id && k in s.pending ==> after.pending[k] == s.pending[k]
  {
  }

  lemma {:induction false} FlushOnly(s: State, ids: seq<string>, fn: Option<Log -> string>, k: string)
    ensures k in Flush(s, ids, fn).pending ==> k in s.pending && Flush(s, ids, fn).pending[k] == s.pending[k]
  {
    if ids != [] {
      FlushOnly(s, ids[..|ids| - 1], fn, k);
    }
  }

  /** In every run a pending log says what its request's events said. */
  lemma {:induction false} PendingSays(fn: Option<Log -> string>, es: seq<Event>, id: string)
    ensures var s := Run(Nothing, fn, es);
            id in s.pending ==> Says(s.pending[id], fn, es, id)
  {
    hide Store, Flush;
    if es != [] {
      var before, e := es[..|es| - 1], es[|es| - 1];
      var s := Run(Nothing, fn, before);
      PendingSays(fn, before, id);
      match e
      case Finalize(of, meta, saves) =>
        if of in s.pending {
          StoreOnly(s, of, Finalized(s.pending[of], meta), fn, saves, id);
        }
      case Disconnect(of, reason, ending, saves) =>
        if of in s.pending {
          StoreOnly(s, of, Disconnected(s.pending[of], reason, ending), fn, saves, id);
        }
      case Shutdown(flushed, stopped) =>
        var most := Flush(s, flushed, fn);
        FlushOnly(s, flushed, fn, id);
        if stopped.Some? && stopped.value in most.pending {
          StoreOnly(most, stopped.value, most.pending[stopped.value], fn, false, id);
        }
      case _ =>
    }
  }

  /** The record of one save: this log, stamped, after those saved before. */
  predicate SavedAs(after: State, before: State, id: string, log: Log, fn: Option<Log -> string>) {
    && |after.saved| == |before.saved| + 1 && after.saved[..|before.saved|] == before.saved
    && var r := after.saved[|before.saved|];
       && r.id == id && ButForStamp(r.log, log)
       && r.log.fingerprint == if fn.Some? then fn.value(log) else log.fingerprint
  }

  /**
    * In every run a finalized request that storage takes is saved under its id with the status, body, tokens and
    * duration given, the base it was opened with, its chunks, and the disconnect mark only if one was reported.
    */
  lemma FinalizedSays(fn: Option<Log -> string>, es: seq<Event>, id: string, meta: Meta)
    requires id in Run(Nothing, fn, es).pending
    ensures var s := Run(Nothing, fn, es);
            var was, after := s.pending[id], Step(s, fn, Finalize(id, meta, true));
            && SavedAs(after, s, id, Log(OpenedWith(fn, es, id).base, meta, was.chunks, Marked(fn, es, id), was.reason,
                                         was.fingerprint), fn)
            && after.pending == s.pending - {id}
  {
    hide Run;
    PendingSays(fn, es, id);
  }

  /**
    * Likewise a disconnected one: marked, with the reason given, the body reported before, and the other figures
    * given, if any.
    */
  lemma DisconnectedSays(fn: Option<Log -> string>, es: seq<Event>, id: string, reason: string, ending: Option<Meta>)
    requires id in Run(Nothing, fn, es).pending
    ensures var s := Run(Nothing, fn, es);
            var was, after := s.pending[id], Step(s, fn, Disconnect(id, reason, ending, true));
            var known := Reported(fn, es, id);
            var figures := if ending.Some? then ending.value.(body := known.body) else known;
            && SavedAs(after, s, id, Log(OpenedWith(fn, es, id).base, figures, was.chunks, true, reason,
                                         was.fingerprint), fn)
            && after.pending == s.pending - {id}
  {
    hide Run;
    PendingSays(fn, es, id);
  }

  /** A save that storage refuses, and an event for a request that is not pending, save nothing. */
  lemma RefusedSavesNothing(fn: Option<Log -> string>, s: State, e: Event)
    requires (e.Finalize? || e.Disconnect?) && (!e.saves || e.id !in s.pending)
    ensures Step(s, fn, e).saved == s.saved && Step(s, fn, e).pending.Keys == s.pending.Keys
  {
  }
}
