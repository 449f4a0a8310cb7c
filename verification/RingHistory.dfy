/** The ring buffer seen from outside: what its callers push, what they are answered and when they wait. */
module RingHistory {
  import opened Common
  import opened RingMonitor

  /** The event with which a thread last entered Push. */
  function LastPush<T>(acts: seq<Act<T>>, t: nat): Option<T> {
    if acts == [] then None
    else
      var a := acts[|acts| - 1];
      if a.Push? && a.t == t then Some(a.event) else LastPush(acts[..|acts| - 1], t)
  }

  /** The events whose Push was answered with success, in the order of these answers. */
  function PushedEvents<T(==)>(size: nat, acts: seq<Act<T>>): seq<T>
    requires Possible(size, acts)
  {
    if acts == [] then []
    else
      var init, a := acts[..|acts| - 1], acts[|acts| - 1];
      var own := if a.Push? || a.ResumePush? then LastPush(acts, a.t) else None;
      PushedEvents(size, init)
      + (if Next(After(size, init), a).result.Pushed? && own.Some? then [own.value] else [])
  }

  /** What the Pops were answered with, in order. */
  function PoppedEvents<T(==)>(size: nat, acts: seq<Act<T>>): seq<T>
    requires Possible(size, acts)
  {
    if acts == [] then []
    else
      var init, a := acts[..|acts| - 1], acts[|acts| - 1];
      var r := Next(After(size, init), a).result;
      PoppedEvents(size, init) + (if r.Popped? then [r.event] else [])
  }

  predicate Pushing<T>(s: Thread<T>) {
    s.PushAsleep? || s.PushWoken?
  }

  lemma {:induction false} StepKeepsEvents<T>(m: Monitor<T>, a: Act<T>, t: nat)
    requires Enabled(m, a) && Pushing(At(Next(m, a).m, t))
    ensures if a.Push? && a.t == t then At(Next(m, a).m, t).event == a.event
            else Pushing(At(m, t)) && At(Next(m, a).m, t).event == At(m, t).event
  {
  }

  /** A thread that waits in Push, or was woken in it, still has the event it came with. */
  lemma {:induction false} WaitersKeepTheirEvent<T>(size: nat, acts: seq<Act<T>>, t: nat)
    requires Possible(size, acts)
    ensures Pushing(At(After(size, acts), t)) ==> LastPush(acts, t) == Some(At(After(size, acts), t).event)
  {
    hide Next, Enabled;
    if acts != [] && Pushing(At(After(size, acts), t)) {
      var init, a := acts[..|acts| - 1], acts[|acts| - 1];
      WaitersKeepTheirEvent(size, init, t);
      StepKeepsEvents(After(size, init), a, t);
    }
  }

  lemma {:induction false} StepAccepts<T>(m: Monitor<T>, a: Act<T>)
    requires Enabled(m, a)
    ensures var out := Next(m, a);
            && (out.result.Pushed? ==> a.Push? || a.ResumePush?) && (out.result.Popped? ==> a.Pop? || a.ResumePop?)
            && (a.ResumePush? ==> Pushing(At(m, a.t)))
            && out.m.accepted == m.accepted + (if !out.result.Pushed? then []
                                               else if a.Push? then [a.event] else [At(m, a.t).event])
            && out.m.delivered == m.delivered + (if out.result.Popped? then [out.result.event] else [])
  {
  }

  /** In every run, what the buffer has accepted and delivered is what its callers pushed and were given. */
  lemma {:induction false} HistoriesAreReal<T>(size: nat, acts: seq<Act<T>>)
    requires Possible(size, acts)
    ensures After(size, acts).accepted == PushedEvents(size, acts)
    ensures After(size, acts).delivered == PoppedEvents(size, acts)
  {
    hide Next, Enabled;
    if acts != [] {
      var init, a := acts[..|acts| - 1], acts[|acts| - 1];
      HistoriesAreReal(size, init);
      StepAccepts(After(size, init), a);
      if a.ResumePush? {
        WaitersKeepTheirEvent(size, init, a.t);
      }
    }
  }

  /**
    * In every run, what the Pops have given is the beginning of what was pushed, and no more than the size is
    * under way; a Pop that gives an event gives the next one.
    */
  lemma PopsGivePushes<T>(size: nat, acts: seq<Act<T>>, a: Act<T>)
    requires Possible(size, acts) && Enabled(After(size, acts), a)
    ensures var pushed, popped := PushedEvents(size, acts), PoppedEvents(size, acts);
            var out := Next(After(size, acts), a);
            && popped <= pushed && |pushed| - |popped| <= size
            && After(size, acts).items == pushed[|popped|..]
            && (out.result.Popped? ==> |popped| < |pushed| && out.result.event == pushed[|popped|])
  {
    EveryInterleaving(size, acts);
    HistoriesAreReal(size, acts);
    StepAccepts(After(size, acts), a);
    var m := After(size, acts);
    assert (m.delivered + m.items)[|m.delivered|..] == m.items;
  }

  // ----- What each call is answered -----

  /** The events under way: pushed and not yet popped. */
  function UnderWay<T(==)>(size: nat, acts: seq<Act<T>>): int
    requires Possible(size, acts)
  {
    |PushedEvents(size, acts)| - |PoppedEvents(size, acts)|
  }

  ghost predicate ClosedIn<T>(acts: seq<Act<T>>) {
    exists i :: 0 <= i < |acts| && acts[i].Close?
  }

  lemma {:induction false} ClosedIsClosed<T>(size: nat, acts: seq<Act<T>>)
    requires Possible(size, acts)
    ensures After(size, acts).closed <==> ClosedIn(acts)
  {
    if acts != [] {
      var init := acts[..|acts| - 1];
      ClosedIsClosed(size, init);
      if ClosedIn(init) {
        var i :| 0 <= i < |init| && init[i].Close?;
        assert acts[i].Close?;
      }
      assert acts == init + [acts[|acts| - 1]];
    }
  }

  /**
    * In every run a Push reports the close exactly after one, waits exactly when the buffer is full and open,
    * and succeeds otherwise; a Pop gives an event exactly when one is under way, and without one reports the
    * close or waits for it.
    */
  lemma AnsweredAs<T>(size: nat, acts: seq<Act<T>>, a: Act<T>)
    requires Possible(size, acts) && Enabled(After(size, acts), a)
    ensures var r, n := Next(After(size, acts), a).result, UnderWay(size, acts);
            && (a.Push? || a.ResumePush? ==>
                  r == if ClosedIn(acts) then BufferClosed else if n == size then Blocked else Pushed)
            && (a.Pop? || a.ResumePop? ==>
                  if n > 0 then r.Popped? else r == if ClosedIn(acts) then BufferClosed else Blocked)
  {
    EveryInterleaving(size, acts);
    HistoriesAreReal(size, acts);
    ClosedIsClosed(size, acts);
    var m := After(size, acts);
    assert |m.accepted| == |m.delivered| + |m.items|;
  }

  /**
    * A call that waits leaves its thread asleep where it waits, any other leaves it outside; of the others
    * a success wakes at most the one it signals, and a close wakes all.
    */
  lemma {:induction false} ThreadsAfter<T>(m: Monitor<T>, a: Act<T>, t: nat)
    requires Enabled(m, a)
    ensures var r, s, s' := Next(m, a).result, At(m, t), At(Next(m, a).m, t);
            if a.Close? then !s'.PushAsleep? && !s'.PopAsleep? && (s'.Idle? <==> s.Idle?)
                             && (s.PushWoken? || s.PushAsleep? <==> s'.PushWoken?)
            else if a.t == t then
              if !r.Blocked? then s'.Idle? else if a.Push? || a.ResumePush? then s'.PushAsleep? else s'.PopAsleep?
            else if a.wake == t && r.Pushed? && s.PopAsleep? then s'.PopWoken?
            else if a.wake == t && r.Popped? && s.PushAsleep? then s'.PushWoken?
            else s' == s
  {
  }
}
