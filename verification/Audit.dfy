/** The synchronous audit assembler (pkg/plugin/oss/audit_simple.go). */
module Audit {
  import opened Common

  datatype Chunk = Chunk(index: int, data: string)

  datatype Meta = Meta(status: int, body: string, promptTokens: int, completionTokens: int, totalTokens: int,
      duration: int)

  /** An audit log; `base` stands for the request's own fields, which the assembler never touches. */
  datatype Log = Log(base: string, meta: Meta, chunks: seq<Chunk>, disconnected: bool, reason: string,
      fingerprint: string)

  const NO_META := Meta(0, "", 0, 0, 0, 0)

  /** A record in storage, under the request id it was pending for. */
  datatype Saved = Saved(id: string, log: Log)

  datatype State = State(pending: map<string, Log>, saved: seq<Saved>)

  function NewLog(base: string): Log {
    Log(base, NO_META, [], false, "", "")
  }

  function Stamp(log: Log, fn: Option<Log -> string>): Log {
    if fn.Some? then log.(fingerprint := fn.value(log)) else log
  }

  /** Storing the stamped log: it stays pending, stamped, when storage fails. */
  function Store(s: State, id: string, log: Log, fn: Option<Log -> string>, saves: bool): State {
    var stamped := Stamp(log, fn);
    if saves then State(s.pending - {id}, s.saved + [Saved(id, stamped)]) else s.(pending := s.pending[id := stamped])
  }

  lemma StoreAfterEdit(s: State, id: string, log: Log, fn: Option<Log -> string>, saves: bool)
    ensures Store(s.(pending := s.pending[id := log]), id, log, fn, saves) == Store(s, id, log, fn, saves)
  {
    hide Stamp;
    var edited := s.(pending := s.pending[id := log]);
    assert edited.pending - {id} == s.pending - {id};
    assert edited.pending[id := Stamp(log, fn)] == s.pending[id := Stamp(log, fn)];
  }

  function Finalized(log: Log, meta: Meta): Log {
    log.(meta := meta)
  }

  /** A disconnect keeps the response body that the log already has. */
  function Disconnected(log: Log, reason: string, meta: Option<Meta>): Log {
    var marked := log.(disconnected := true, reason := reason);
    if meta.Some? then marked.(meta := meta.value.(body := log.meta.body)) else marked
  }

  datatype Event =
    | Submit(id: string, given: Option<Log>)
    | AddChunk(id: string, chunk: Chunk)
    | Finalize(id: string, meta: Meta, saves: bool)
    | Disconnect(id: string, reason: string, ending: Option<Meta>, saves: bool)
    | Shutdown(flushed: seq<string>, stopped: Option<string>)

  /** The ids flushed in this order, those that are still pending. */
  function Flush(s: State, ids: seq<string>, fn: Option<Log -> string>): State {
    if ids == [] then s
    else
      var most, id := Flush(s, ids[..|ids| - 1], fn), ids[|ids| - 1];
      if id in most.pending then Store(most, id, most.pending[id], fn, true) else most
  }

  lemma FlushNone(s: State, fn: Option<Log -> string>)
    ensures Flush(s, [], fn) == s
  {
  }

  lemma FlushSnoc(s: State, ids: seq<string>, id: string, fn: Option<Log -> string>)
    requires id in Flush(s, ids, fn).pending
    ensures Flush(s, ids + [id], fn) == Store(Flush(s, ids, fn), id, Flush(s, ids, fn).pending[id], fn, true)
  {
    assert (ids + [id])[..|ids|] == ids;
  }

  /** `fn` is the fingerprint function in force. A shutdown stops at the first log that storage refuses. */
  function Step(s: State, fn: Option<Log -> string>, e: Event): State {
    match e
    case Submit(id, given) =>
      if id in s.pending then s else s.(pending := s.pending[id := if given.Some? then given.value else NewLog(id)])
    case AddChunk(id, chunk) =>
      var log := if id in s.pending then s.pending[id] else NewLog(id);
      s.(pending := s.pending[id := log.(chunks := log.chunks + [chunk])])
    case Finalize(id, meta, saves) =>
      if id in s.pending then Store(s, id, Finalized(s.pending[id], meta), fn, saves) else s
    case Disconnect(id, reason, meta, saves) =>
      if id in s.pending then Store(s, id, Disconnected(s.pending[id], reason, meta), fn, saves) else s
    case Shutdown(flushed, stopped) =>
      var most := Flush(s, flushed, fn);
      if stopped.Some? && stopped.value in most.pending
      then Store(most, stopped.value, most.pending[stopped.value], fn, false) else most
  }

  // ----- The assembler that is updated in place -----

  /** A log being assembled; `key` tells the pending logs apart. */
  class AuditLog {
    ghost const key: string
    const base: string
    var meta: Meta
    var chunks: seq<Chunk>
    var disconnected: bool
    var reason: string
    var fingerprint: string

    function View(): Log
      reads this
    {
      Log(base, meta, chunks, disconnected, reason, fingerprint)
    }

    constructor (log: Log, ghost key: string)
      ensures View() == log && this.key == key
    {
      base, meta, chunks := log.base, log.meta, log.chunks;
      disconnected, reason, fingerprint := log.disconnected, log.reason, log.fingerprint;
      this.key := key;
    }

    method Append(chunk: Chunk)
      modifies this
      ensures View() == old(View()).(chunks := old(chunks) + [chunk])
    {
      chunks := chunks + [chunk];
    }

    method FillIn(meta: Meta)
      modifies this
      ensures View() == Finalized(old(View()), meta)
    {
      this.meta := meta;
    }

    method MarkDisconnected(reason: string, ending: Option<Meta>)
      modifies this
      ensures View() == Disconnected(old(View()), reason, ending)
    {
      disconnected := true;
      this.reason := reason;
      if ending.Some? {
        meta := ending.value.(body := meta.body);
      }
    }

    method StampWith(fn: Option<Log -> string>)
      modifies this
      ensures View() == Stamp(old(View()), fn)
    {
      if fn.Some? {
        fingerprint := fn.value(View());
      }
    }
  }

  class SimpleAuditor {
    /** What storage has been given. */
    var saved: seq<Saved>
    var fingerprintFn: Option<Log -> string>
    var pending: map<string, AuditLog>

    ghost predicate Valid()
      reads this
    {
      forall k :: k in pending ==> pending[k].key == k
    }

    ghost function View(): State
      reads this, pending.Values
    {
      State(map k | k in pending :: pending[k].View(), saved)
    }

    constructor ()
      ensures Valid() && View() == State(map[], []) && fingerprintFn == None
    {
      saved, fingerprintFn, pending := [], None, map[];
    }

    method SetFingerprintFunc(fn: Option<Log -> string>)
      requires Valid()
      modifies this`fingerprintFn
      ensures Valid() && View() == old(View()) && fingerprintFn == fn
    {
      fingerprintFn := fn;
    }

    method Open(id: string, log: Log)
      requires Valid() && id !in pending
      modifies this`pending
      ensures Valid() && View() == old(View()).(pending := old(View()).pending[id := log])
      ensures id in pending && fresh(pending[id])
      ensures forall o :: o in pending.Values ==> o in old(pending.Values) || fresh(o)
    {
      ghost var before := View();
      var made := new AuditLog(log, id);
      pending := pending[id := made];
      assert View().pending == before.pending[id := log];
    }

    method SubmitEvent(id: string, given: Option<Log>)
      requires Valid()
      modifies this`pending
      ensures Valid() && View() == Step(old(View()), fingerprintFn, Submit(id, given))
      ensures forall o :: o in pending.Values ==> o in old(pending.Values) || fresh(o)
    {
      if id !in pending {
        Open(id, if given.Some? then given.value else NewLog(id));
      }
    }

    method SubmitSSEChunk(id: string, chunk: Chunk)
      requires Valid()
      modifies this`pending, pending.Values
      ensures Valid() && View() == Step(old(View()), fingerprintFn, AddChunk(id, chunk))
      ensures forall o :: o in pending.Values ==> o in old(pending.Values) || fresh(o)
    {
      if id !in pending {
        Open(id, NewLog(id));
      }
      ghost var ready := View();
      var log := pending[id];
      log.Append(chunk);
      assert View().pending == ready.pending[id := log.View()];
    }

    /** Stamps the pending log and hands it to storage, which answers `saves`. */
    method StampAndSave(id: string, saves: bool) returns (ok: bool)
      requires Valid() && id in pending
      modifies this`pending, this`saved, pending[id]
      ensures Valid() && ok == saves && pending == (if saves then old(pending) - {id} else old(pending))
      ensures View() == Store(old(View()), id, old(View()).pending[id], fingerprintFn, saves)
    {
      ghost var before := View();
      var log := pending[id];
      log.StampWith(fingerprintFn);
      assert View().pending == before.pending[id := log.View()];
      if !saves {
        return false;
      }
      saved := saved + [Saved(id, log.View())];
      Forget(id);
      return true;
    }

    method Forget(id: string)
      requires Valid()
      modifies this`pending
      ensures Valid() && pending == old(pending) - {id}
      ensures View() == old(View()).(pending := old(View()).pending - {id})
    {
      ghost var before := View();
      pending := pending - {id};
      assert View().pending == before.pending - {id};
    }

    method FinalizeRequest(id: string, meta: Meta, saves: bool) returns (ok: bool)
      requires Valid()
      modifies this`pending, this`saved, pending.Values
      ensures Valid() && View() == Step(old(View()), fingerprintFn, Finalize(id, meta, saves))
      ensures ok == (id !in old(pending) || saves) && (pending == old(pending) || pending == old(pending) - {id})
    {
      hide Store, Finalized, Disconnected;
      if id !in pending {
        return true;
      }
      ghost var before := View();
      var log := pending[id];
      log.FillIn(meta);
      assert View().pending == before.pending[id := Finalized(before.pending[id], meta)];
      StoreAfterEdit(before, id, Finalized(before.pending[id], meta), fingerprintFn, saves);
      ok := StampAndSave(id, saves);
    }

    method MarkDisconnect(id: string, reason: string, ending: Option<Meta>, saves: bool) returns (ok: bool)
      requires Valid()
      modifies this`pending, this`saved, pending.Values
      ensures Valid() && View() == Step(old(View()), fingerprintFn, Disconnect(id, reason, ending, saves))
      ensures ok == (id !in old(pending) || saves) && (pending == old(pending) || pending == old(pending) - {id})
    {
      hide Store, Finalized, Disconnected;
      if id !in pending {
        return true;
      }
      ghost var before := View();
      var log := pending[id];
      log.MarkDisconnected(reason, ending);
      assert View().pending == before.pending[id := Disconnected(before.pending[id], reason, ending)];
      StoreAfterEdit(before, id, Disconnected(before.pending[id], reason, ending), fingerprintFn, saves);
      ok := StampAndSave(id, saves);
    }

    /** Flushes what is pending, in any order, until storage, which takes `room` more logs, refuses one. */
    method ShutDown(room: nat) returns (ok: bool, ghost flushed: seq<string>, ghost stopped: Option<string>)
      requires Valid()
      modifies this`pending, this`saved, pending.Values
      ensures Valid() && View() == Step(old(View()), fingerprintFn, Shutdown(flushed, stopped))
      ensures ok <==> stopped == None
      ensures ok ==> pending == map[]
    {
      hide Store, Stamp, Flush, Finalized, Disconnected;
      flushed, stopped := [], None;
      ghost var before := View();
      FlushNone(before, fingerprintFn);
      var left := room;
      var ids := pending.Keys;
      while ids != {}
        invariant ids == pending.Keys && forall k :: k in pending ==> k in old(pending) && pending[k] == old(pending)[k]
        invariant Valid() && View() == Flush(before, flushed, fingerprintFn)
      {
        var id :| id in ids;
        if left == 0 {
          stopped := Some(id);
          var _ := StampAndSave(id, false);
          return false, flushed, stopped;
        }
        left := left - 1;
        FlushSnoc(before, flushed, id, fingerprintFn);
        var _ := StampAndSave(id, true);
        flushed := flushed + [id];
        ids := ids - {id};
      }
      return true, flushed, stopped;
    }
  }
}
