/** What the audit trail keeps over whole runs, with storage failing at will. */
module AuditRuns {
  import opened Common
  import opened Audit

  /** The fingerprint function stays the same through the run. */
  function Run(s: State, fn: Option<Log -> string>, es: seq<Event>): State {
    if es == [] then s else Step(Run(s, fn, es[..|es| - 1]), fn, es[|es| - 1])
  }

  const Nothing := State(map[], [])

  /** The chunks of the records saved for a request, in the order they were saved. */
  function SavedChunks(saved: seq<Saved>, id: string): seq<Chunk> {
    if saved == [] then []
    else
      var last := saved[|saved| - 1];
      SavedChunks(saved[..|saved| - 1], id) + (if last.id == id then last.log.chunks else [])
  }

  function Records(saved: seq<Saved>, id: string): nat {
    if saved == [] then 0 else Records(saved[..|saved| - 1], id) + (if saved[|saved| - 1].id == id then 1 else 0)
  }

  function PendingChunks(s: State, id: string): seq<Chunk> {
    if id in s.pending then s.pending[id].chunks else []
  }

  /** Everything kept for a request: saved chunks, then pending ones. */
  function Kept(s: State, id: string): seq<Chunk> {
    SavedChunks(s.saved, id) + PendingChunks(s, id)
  }

  function Count(s: State, id: string): nat {
    Records(s.saved, id) + (if id in s.pending then 1 else 0)
  }

  /** The chunks one event brings in for a request: those of a given log count when it is taken up. */
  function Brought(s: State, e: Event, id: string): seq<Chunk> {
    match e
    case AddChunk(to, chunk) => if to == id then [chunk] else []
    case Submit(to, given) => if to == id && id !in s.pending && given.Some? then given.value.chunks else []
    case _ => []
  }

  function Submitted(s: State, fn: Option<Log -> string>, es: seq<Event>, id: string): seq<Chunk> {
    if es == [] then []
    else
      var before := es[..|es| - 1];
      Submitted(s, fn, before, id) + Brought(Run(s, fn, before), es[|es| - 1], id)
  }

  predicate Opens(s: State, e: Event, id: string) {
    id !in s.pending && (e.Submit? || e.AddChunk?) && e.id == id
  }

  /** How often a log was opened for a request. */
  function Openings(s: State, fn: Option<Log -> string>, es: seq<Event>, id: string): nat {
    if es == [] then 0
    else
      var before := es[..|es| - 1];
      Openings(s, fn, before, id) + (if Opens(Run(s, fn, before), es[|es| - 1], id) then 1 else 0)
  }

  // ----- One step -----

  lemma StoreKeeps(s: State, id: string, log: Log, fn: Option<Log -> string>, saves: bool, of: string)
    requires id in s.pending && log.chunks == s.pending[id].chunks
    ensures Kept(Store(s, id, log, fn, saves), of) == Kept(s, of)
        && Count(Store(s, id, log, fn, saves), of) == Count(s, of)
  {
    var stored := Store(s, id, log, fn, saves);
    assert stored.saved[..|s.saved|] == s.saved;
  }

  lemma {:induction false} FlushKeeps(s: State, ids: seq<string>, fn: Option<Log -> string>, of: string)
    ensures Kept(Flush(s, ids, fn), of) == Kept(s, of) && Count(Flush(s, ids, fn), of) == Count(s, of)
  {
    hide Store, Kept, Count;
    if ids != [] {
      var most, id := Flush(s, ids[..|ids| - 1], fn), ids[|ids| - 1];
      FlushKeeps(s, ids[..|ids| - 1], fn, of);
      if id in most.pending {
        StoreKeeps(most, id, most.pending[id], fn, true, of);
      }
    }
  }

  lemma StepKeeps(s: State, fn: Option<Log -> string>, e: Event, id: string)
    ensures Kept(Step(s, fn, e), id) == Kept(s, id) + Brought(s, e, id)
    ensures Count(Step(s, fn, e), id) == Count(s, id) + (if Opens(s, e, id) then 1 else 0)
  {
    hide Store, Flush, SavedChunks, Records;
    match e
    case Finalize(of, meta, saves) =>
      if of in s.pending {
        StoreKeeps(s, of, Finalized(s.pending[of], meta), fn, saves, id);
      }
    case Disconnect(of, reason, ending, saves) =>
      if of in s.pending {
        StoreKeeps(s, of, Disconnected(s.pending[of], reason, ending), fn, saves, id);
      }
    case Shutdown(flushed, stopped) =>
      var most := Flush(s, flushed, fn);
      FlushKeeps(s, flushed, fn, id);
      if stopped.Some? && stopped.value in most.pending {
        StoreKeeps(most, stopped.value, most.pending[stopped.value], fn, false, id);
      }
    case _ =>
  }

  // ----- Whole runs -----

  /**
    * In every run, failing saves included, the chunks of a request's saved records in the order they were
    * saved, followed by its pending ones, are exactly those submitted for it, in order.
    */
  lemma {:induction false} ChunksConserved(fn: Option<Log -> string>, es: seq<Event>, id: string)
    ensures Kept(Run(Nothing, fn, es), id) == Submitted(Nothing, fn, es, id)
  {
    hide Kept, Step, Brought;
    if es == [] {
      assert Kept(Nothing, id) == [] by {
        NothingKept(id);
      }
    } else {
      ChunksConserved(fn, es[..|es| - 1], id);
      StepKeeps(Run(Nothing, fn, es[..|es| - 1]), fn, es[|es| - 1], id);
    }
  }

  lemma NothingKept(id: string)
    ensures Kept(Nothing, id) == [] && Count(Nothing, id) == 0
  {
  }

  /** Every log that was opened for a request has been saved exactly once or is still pending. */
  lemma {:induction false} OpeningsConserved(fn: Option<Log -> string>, es: seq<Event>, id: string)
    ensures Count(Run(Nothing, fn, es), id) == Openings(Nothing, fn, es, id)
  {
    hide Count, Step, Opens;
    if es == [] {
      NothingKept(id);
    } else {
      OpeningsConserved(fn, es[..|es| - 1], id);
      StepKeeps(Run(Nothing, fn, es[..|es| - 1]), fn, es[|es| - 1], id);
    }
  }

  // ----- At most one record for a request that is over once closed -----

  predicate Feeds(e: Event, id: string) {
    (e.Submit? || e.AddChunk?) && e.id == id
  }

  predicate Closes(e: Event, id: string) {
    e.Shutdown? || ((e.Finalize? || e.Disconnect?) && e.id == id)
  }

  /** Nothing is submitted for the request once it was finalized, disconnected or shut down. */
  predicate OverOnceClosed(es: seq<Event>, id: string) {
    es != [] ==>
      var before, e := es[..|es| - 1], es[|es| - 1];
      OverOnceClosed(before, id) && (Feeds(e, id) ==> !Closed(before, id))
  }

  predicate Closed(es: seq<Event>, id: string) {
    exists e :: e in es && Closes(e, id)
  }

  predicate Fed(es: seq<Event>, id: string) {
    exists e :: e in es && Feeds(e, id)
  }

  lemma {:induction false} OpenUntilClosed(fn: Option<Log -> string>, es: seq<Event>, id: string)
    requires OverOnceClosed(es, id)
    ensures Openings(Nothing, fn, es, id) <= 1
    ensures !Closed(es, id) ==> (id in Run(Nothing, fn, es).pending <==> Fed(es, id))
    ensures Openings(Nothing, fn, es, id) > 0 ==> Fed(es, id)
  {
    if es != [] {
      var before, e := es[..|es| - 1], es[|es| - 1];
      assert es == before + [e];
      OpenUntilClosed(fn, before, id);
      if !Closes(e, id) {
        StaysOpen(Run(Nothing, fn, before), fn, e, id);
      }
      assert Closed(before, id) ==> Closed(es, id);
      assert Fed(before, id) ==> Fed(es, id);
    }
  }

  lemma StaysOpen(s: State, fn: Option<Log -> string>, e: Event, id: string)
    requires !Closes(e, id)
    ensures id in Step(s, fn, e).pending <==> id in s.pending || Feeds(e, id)
  {
  }

  /** A request to which nothing is submitted after its end leaves at most one record. */
  lemma AtMostOneRecord(fn: Option<Log -> string>, es: seq<Event>, id: string)
    requires OverOnceClosed(es, id)
    ensures Records(Run(Nothing, fn, es).saved, id) <= 1
  {
    hide Run, Openings, OverOnceClosed;
    OpeningsConserved(fn, es, id);
    OpenUntilClosed(fn, es, id);
  }

  // ----- Shutting down -----

  lemma {:induction false} FlushEmpties(s: State, ids: seq<string>, fn: Option<Log -> string>, id: string)
    ensures id in Flush(s, ids, fn).pending <==> id in s.pending && id !in ids
  {
    if ids != [] {
      FlushEmpties(s, ids[..|ids| - 1], fn, id);
      assert ids == ids[..|ids| - 1] + [ids[|ids| - 1]];
    }
  }

  /** A shutdown that storage never refuses, over all that is pending, leaves every submitted chunk saved. */
  lemma ShutdownSavesAll(fn: Option<Log -> string>, es: seq<Event>, flushed: seq<string>, id: string)
    requires forall k :: k in Run(Nothing, fn, es).pending ==> k in flushed
    ensures var after := Step(Run(Nothing, fn, es), fn, Shutdown(flushed, None));
            id !in after.pending && SavedChunks(after.saved, id) == Submitted(Nothing, fn, es, id)
  {
    hide Run, Submitted, Flush, SavedChunks;
    var s := Run(Nothing, fn, es);
    FlushEmpties(s, flushed, fn, id);
    ChunksConserved(fn, es, id);
    StepKeeps(s, fn, Shutdown(flushed, None), id);
    var after := Step(s, fn, Shutdown(flushed, None));
    assert id !in after.pending;
    assert Kept(after, id) == SavedChunks(after.saved, id) + [] == SavedChunks(after.saved, id);
    assert Kept(s, id) + [] == Kept(s, id);
  }

  // ----- Fingerprints -----

  predicate Stamped(saved: seq<Saved>, fn: Log -> string) {
    forall r :: r in saved ==> r.log.fingerprint == fn(r.log)
  }

  /** A fingerprint does not depend on the fingerprint field itself. */
  ghost predicate IgnoresItself(fn: Log -> string) {
    forall log: Log, f: string :: fn(log.(fingerprint := f)) == fn(log)
  }

  lemma {:induction false} FlushStamps(s: State, ids: seq<string>, fn: Log -> string)
    requires IgnoresItself(fn) && Stamped(s.saved, fn)
    ensures Stamped(Flush(s, ids, Some(fn)).saved, fn)
  {
    if ids != [] {
      FlushStamps(s, ids[..|ids| - 1], fn);
    }
  }

  /** Once the fingerprint function is in force, every saved record carries the fingerprint of what it says. */
  lemma {:induction false} RecordsStamped(fn: Log -> string, es: seq<Event>)
    requires IgnoresItself(fn)
    ensures Stamped(Run(Nothing, Some(fn), es).saved, fn)
  {
    if es != [] {
      var before, e := es[..|es| - 1], es[|es| - 1];
      RecordsStamped(fn, before);
      if e.Shutdown? {
        FlushStamps(Run(Nothing, Some(fn), before), e.flushed, fn);
      }
    }
  }
}
