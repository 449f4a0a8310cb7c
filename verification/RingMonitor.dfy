/**
  * The blocking ring buffer as a monitor (pkg/plugin/oss/ring_buffer.go): what its threads do under the
  * lock, the two condition variables, and what holds in every interleaving.
  */
module RingMonitor {
  import opened Common

  /** A thread outside the buffer, asleep in a Wait, or woken and waiting for the lock. */
  datatype Thread<T> =
    | Idle
    | PushAsleep(event: T)
    | PushWoken(event: T)
    | PopAsleep
    | PopWoken

  /** The abstract monitor: a queue, and histories of what went in and out. */
  datatype Monitor<T> = Monitor(
    size: nat, items: seq<T>, closed: bool, threads: map<nat, Thread<T>>, accepted: seq<T>, delivered: seq<T>)

  /** What a thread is told when its call returns; Blocked means that it now waits. */
  datatype Result<T> = Pushed | Popped(event: T) | BufferClosed | Blocked

  /**
    * One atomic step: a thread enters Push or Pop, or resumes in it after being woken, and runs until
    * it returns or waits; or some thread closes the buffer. `wake` is the sleeper that the step's
    * Signal picks, if any sleeps.
    */
  datatype Act<T> =
    | Push(t: nat, event: T, wake: nat) | Pop(t: nat, wake: nat)
    | ResumePush(t: nat, wake: nat) | ResumePop(t: nat, wake: nat)
    | Close

  function Init<T>(size: nat): Monitor<T> {
    Monitor(size, [], false, map[], [], [])
  }

  function At<T>(m: Monitor<T>, t: nat): Thread<T> {
    if t in m.threads then m.threads[t] else Idle
  }

  function PushSleepers<T>(m: Monitor<T>): set<nat> {
    set t | t in m.threads && m.threads[t].PushAsleep?
  }

  function PopSleepers<T>(m: Monitor<T>): set<nat> {
    set t | t in m.threads && m.threads[t].PopAsleep?
  }

  /** Pending signals: threads woken by a Signal (or Broadcast) that have not yet run. */
  function PushSignals<T>(m: Monitor<T>): set<nat> {
    set t | t in m.threads && m.threads[t].PushWoken?
  }

  function PopSignals<T>(m: Monitor<T>): set<nat> {
    set t | t in m.threads && m.threads[t].PopWoken?
  }

  predicate Enabled<T>(m: Monitor<T>, a: Act<T>) {
    match a
    case Push(t, _, wake) => At(m, t).Idle? && (PopSleepers(m) != {} ==> wake in PopSleepers(m))
    case ResumePush(t, wake) => At(m, t).PushWoken? && (PopSleepers(m) != {} ==> wake in PopSleepers(m))
    case Pop(t, wake) => At(m, t).Idle? && (PushSleepers(m) != {} ==> wake in PushSleepers(m))
    case ResumePop(t, wake) => At(m, t).PopWoken? && (PushSleepers(m) != {} ==> wake in PushSleepers(m))
    case Close => true
  }

  /** notEmpty.Signal() */
  function SignalNotEmpty<T>(threads: map<nat, Thread<T>>, wake: nat): map<nat, Thread<T>> {
    if wake in threads && threads[wake].PopAsleep? then threads[wake := PopWoken] else threads
  }

  /** notFull.Signal() */
  function SignalNotFull<T>(threads: map<nat, Thread<T>>, wake: nat): map<nat, Thread<T>> {
    if wake in threads && threads[wake].PushAsleep? then threads[wake := PushWoken(threads[wake].event)] else threads
  }

  /** Both broadcasts of Close. */
  function WakeAll<T>(threads: map<nat, Thread<T>>): map<nat, Thread<T>> {
    map t | t in threads ::
      match threads[t]
      case PushAsleep(e) => PushWoken(e)
      case PopAsleep => PopWoken
      case other => other
  }

  datatype Outcome<T> = Outcome(m: Monitor<T>, result: Result<T>)

  /** The body of Push from the test of its loop to its return or Wait. */
  function RunPush<T>(m: Monitor<T>, t: nat, event: T, wake: nat): Outcome<T> {
    if |m.items| == m.size && !m.closed then Outcome(m.(threads := m.threads[t := PushAsleep(event)]), Blocked)
    else if m.closed then Outcome(m.(threads := m.threads[t := Idle]), BufferClosed)
    else
      Outcome(m.(items := m.items + [event], accepted := m.accepted + [event],
                 threads := SignalNotEmpty(m.threads[t := Idle], wake)),
              Pushed)
  }

  function RunPop<T>(m: Monitor<T>, t: nat, wake: nat): Outcome<T> {
    if m.items == [] && !m.closed then Outcome(m.(threads := m.threads[t := PopAsleep]), Blocked)
    else if m.items == [] then Outcome(m.(threads := m.threads[t := Idle]), BufferClosed)
    else
      Outcome(m.(items := m.items[1..], delivered := m.delivered + [m.items[0]],
                 threads := SignalNotFull(m.threads[t := Idle], wake)),
              Popped(m.items[0]))
  }

  function Next<T>(m: Monitor<T>, a: Act<T>): Outcome<T>
    requires Enabled(m, a)
  {
    match a
    case Push(t, event, wake) => RunPush(m, t, event, wake)
    case ResumePush(t, wake) => RunPush(m, t, m.threads[t].event, wake)
    case Pop(t, wake) => RunPop(m, t, wake)
    case ResumePop(t, wake) => RunPop(m, t, wake)
    case Close => Outcome(m.(closed := true, threads := WakeAll(m.threads)), Blocked)
  }

  // ----- What every step keeps -----

  /** The buffer is a bounded FIFO queue: what was accepted is what was delivered and what it holds, in order. */
  predicate IsQueue<T(==)>(m: Monitor<T>) {
    && |m.items| <= m.size
    && m.accepted == m.delivered + m.items
  }

  /**
    * No wakeup is lost: while a Pop sleeps there are as many pending Pop signals as items, while a
    * Push sleeps as many pending Push signals as free slots, and after Close nobody sleeps.
    */
  predicate NoLostWakeup<T>(m: Monitor<T>) {
    && (PopSleepers(m) != {} ==> |PopSignals(m)| >= |m.items|)
    && (PushSleepers(m) != {} ==> |PushSignals(m)| >= m.size - |m.items|)
    && (m.closed ==> PopSleepers(m) == {} && PushSleepers(m) == {})
  }

  predicate Inv<T(==)>(m: Monitor<T>) {
    IsQueue(m) && NoLostWakeup(m)
  }

  lemma {:induction false} StepKeepsQueue<T>(m: Monitor<T>, a: Act<T>)
    requires IsQueue(m) && Enabled(m, a)
    ensures IsQueue(Next(m, a).m)
    ensures Next(m, a).m.size == m.size && (m.closed ==> Next(m, a).m.closed)
  {
    var m' := Next(m, a).m;
    if |m'.items| < |m.items| {
      assert m.items == [m.items[0]] + m.items[1..];
      assert m.delivered + m.items == m.delivered + [m.items[0]] + m.items[1..];
    }
  }

  /** A running thread returns: it holds no signal any more, and the others are as before. */
  lemma {:induction false} Returns<T>(m: Monitor<T>, m': Monitor<T>, t: nat)
    requires m'.threads == m.threads[t := Idle] && !At(m, t).PopAsleep? && !At(m, t).PushAsleep?
    ensures PopSleepers(m') == PopSleepers(m) && PushSleepers(m') == PushSleepers(m)
    ensures PopSignals(m') == PopSignals(m) - {t} && PushSignals(m') == PushSignals(m) - {t}
    ensures |PopSignals(m')| == |PopSignals(m)| - (if At(m, t).PopWoken? then 1 else 0)
    ensures |PushSignals(m')| == |PushSignals(m)| - (if At(m, t).PushWoken? then 1 else 0)
  {
    assert t in PopSignals(m) <==> At(m, t).PopWoken?;
    assert t in PushSignals(m) <==> At(m, t).PushWoken?;
  }

  /** A running thread goes to sleep. */
  lemma {:induction false} Sleeps<T>(m: Monitor<T>, m': Monitor<T>, t: nat, s: Thread<T>)
    requires m'.threads == m.threads[t := s] && (s.PushAsleep? || s.PopAsleep?)
    requires !At(m, t).PopAsleep? && !At(m, t).PushAsleep?
    ensures s.PushAsleep? ==> PopSleepers(m') == PopSleepers(m)
    ensures s.PopAsleep? ==> PushSleepers(m') == PushSleepers(m)
    ensures PopSignals(m') == PopSignals(m) - {t} && PushSignals(m') == PushSignals(m) - {t}
    ensures !At(m, t).PopWoken? ==> PopSignals(m') == PopSignals(m)
    ensures !At(m, t).PushWoken? ==> PushSignals(m') == PushSignals(m)
  {
  }

  lemma {:induction false} WakesPop<T>(m: Monitor<T>, m': Monitor<T>, w: nat)
    requires m'.threads == m.threads[w := PopWoken] && At(m, w).PopAsleep?
    ensures PopSleepers(m') == PopSleepers(m) - {w} && |PopSignals(m')| == |PopSignals(m)| + 1
    ensures PushSleepers(m') == PushSleepers(m) && PushSignals(m') == PushSignals(m)
  {
    assert PopSignals(m') == PopSignals(m) + {w};
  }

  lemma {:induction false} WakesPush<T>(m: Monitor<T>, m': Monitor<T>, w: nat)
    requires At(m, w).PushAsleep? && m'.threads == m.threads[w := PushWoken(m.threads[w].event)]
    ensures PushSleepers(m') == PushSleepers(m) - {w} && |PushSignals(m')| == |PushSignals(m)| + 1
    ensures PopSleepers(m') == PopSleepers(m) && PopSignals(m') == PopSignals(m)
  {
    assert PushSignals(m') == PushSignals(m) + {w};
  }

  lemma {:induction false} Sleeping<T>(m: Monitor<T>, w: nat)
    ensures w in PopSleepers(m) <==> At(m, w).PopAsleep?
    ensures w in PushSleepers(m) <==> At(m, w).PushAsleep?
  {
  }

  lemma {:induction false} PushKeepsWakeups<T>(m: Monitor<T>, t: nat, event: T, wake: nat)
    requires Inv(m) && (At(m, t).Idle? || At(m, t).PushWoken?)
    requires PopSleepers(m) != {} ==> wake in PopSleepers(m)
    ensures NoLostWakeup(RunPush(m, t, event, wake).m)
  {
    hide PopSleepers, PopSignals, PushSleepers, PushSignals;
    var m' := RunPush(m, t, event, wake).m;
    if |m.items| == m.size && !m.closed {
      Sleeps(m, m', t, PushAsleep(event));
    } else {
      var left := m'.(threads := m.threads[t := Idle]);
      Returns(m, left, t);
      Sleeping(m, wake);
      Sleeping(left, wake);
      if m' != left {
        WakesPop(left, m', wake);
      }
    }
  }

  lemma {:induction false} PopKeepsWakeups<T>(m: Monitor<T>, t: nat, wake: nat)
    requires Inv(m) && (At(m, t).Idle? || At(m, t).PopWoken?)
    requires PushSleepers(m) != {} ==> wake in PushSleepers(m)
    ensures NoLostWakeup(RunPop(m, t, wake).m)
  {
    hide PopSleepers, PopSignals, PushSleepers, PushSignals;
    var m' := RunPop(m, t, wake).m;
    if m.items == [] && !m.closed {
      Sleeps(m, m', t, PopAsleep);
    } else {
      var left := m'.(threads := m.threads[t := Idle]);
      Returns(m, left, t);
      Sleeping(m, wake);
      Sleeping(left, wake);
      if m' != left {
        WakesPush(left, m', wake);
      }
    }
  }

  lemma {:induction false} StepKeepsInv<T>(m: Monitor<T>, a: Act<T>)
    requires Inv(m) && Enabled(m, a)
    ensures Inv(Next(m, a).m)
  {
    StepKeepsQueue(m, a);
    match a
    case Push(t, event, wake) => PushKeepsWakeups(m, t, event, wake);
    case ResumePush(t, wake) => PushKeepsWakeups(m, t, m.threads[t].event, wake);
    case Pop(t, wake) => PopKeepsWakeups(m, t, wake);
    case ResumePop(t, wake) => PopKeepsWakeups(m, t, wake);
    case Close =>
  }

  // ----- Whole interleavings -----

  predicate Possible<T(==)>(size: nat, acts: seq<Act<T>>)
    decreases |acts|, 0
  {
    acts == [] || (var init := acts[..|acts| - 1]; Possible(size, init) && Enabled(After(size, init), acts[|acts| - 1]))
  }

  function After<T(==)>(size: nat, acts: seq<Act<T>>): Monitor<T>
    requires Possible(size, acts)
    decreases |acts|, 1
  {
    if acts == [] then Init(size) else Next(After(size, acts[..|acts| - 1]), acts[|acts| - 1]).m
  }

  /** In every interleaving of Push, Pop and Close: a bounded FIFO queue, and no lost wakeup. */
  lemma {:induction false} EveryInterleaving<T>(size: nat, acts: seq<Act<T>>)
    requires Possible(size, acts)
    ensures var m := After(size, acts);
            && |m.items| <= size && m.accepted == m.delivered + m.items
            && NoLostWakeup(m) && m.size == size
  {
    if acts != [] {
      var init := acts[..|acts| - 1];
      EveryInterleaving(size, init);
      StepKeepsQueue(After(size, init), acts[|acts| - 1]);
      StepKeepsInv(After(size, init), acts[|acts| - 1]);
    }
  }

  /** A thread that waits does so for a reason, or a signal is on its way: nobody is stuck beside work to do. */
  lemma {:induction false} NobodyIsStuck<T>(size: nat, acts: seq<Act<T>>, t: nat)
    requires Possible(size, acts)
    ensures var m := After(size, acts);
            && (At(m, t).PopAsleep? && m.items != [] ==> exists u :: u in PopSignals(m))
            && (At(m, t).PushAsleep? && |m.items| < size ==> exists u :: u in PushSignals(m))
            && (m.closed ==> !At(m, t).PopAsleep? && !At(m, t).PushAsleep?)
  {
    EveryInterleaving(size, acts);
    var m := After(size, acts);
    if At(m, t).PopAsleep? && m.items != [] {
      assert t in PopSleepers(m);
      assert |PopSignals(m)| > 0;
      var u :| u in PopSignals(m);
    }
    if At(m, t).PushAsleep? && |m.items| < size {
      assert t in PushSleepers(m);
      assert |PushSignals(m)| > 0;
      var u :| u in PushSignals(m);
    }
    if m.closed {
      assert t !in PopSleepers(m) && t !in PushSleepers(m);
    }
  }

  // ----- Closing -----

  lemma {:induction false} PossiblePrefix<T>(size: nat, acts: seq<Act<T>>, n: nat)
    requires Possible(size, acts) && n <= |acts|
    ensures Possible(size, acts[..n])
  {
    if n < |acts| {
      assert acts[..n] == acts[..|acts| - 1][..n];
      PossiblePrefix(size, acts[..|acts| - 1], n);
    } else {
      assert acts[..n] == acts;
    }
  }

  lemma {:induction false} StepAfterClose<T>(m: Monitor<T>, a: Act<T>)
    requires Enabled(m, a) && m.closed
    ensures var out := Next(m, a).m;
            && out.closed && out.accepted == m.accepted && m.delivered <= out.delivered
  {
  }

  /**
    * In every run, from a Close on nothing more is accepted, what was delivered stays delivered, and what is
    * held is the rest of what had been accepted, in order.
    */
  lemma {:induction false} DrainsAfterClose<T>(size: nat, acts: seq<Act<T>>, i: nat)
    requires Possible(size, acts) && i < |acts| && acts[i].Close?
    ensures Possible(size, acts[..i + 1])
    ensures var shut, m := After(size, acts[..i + 1]), After(size, acts);
            && m.closed && m.accepted == shut.accepted && shut.delivered <= m.delivered
            && m.delivered + m.items == shut.delivered + shut.items
  {
    hide Next, Enabled;
    PossiblePrefix(size, acts, i + 1);
    EveryInterleaving(size, acts);
    EveryInterleaving(size, acts[..i + 1]);
    if i + 1 == |acts| {
      assert acts[..i + 1] == acts;
      CloseShuts(size, acts);
    } else {
      var init, a := acts[..|acts| - 1], acts[|acts| - 1];
      DrainsAfterClose(size, init, i);
      assert init[..i + 1] == acts[..i + 1];
      StepAfterClose(After(size, init), a);
    }
  }

  lemma CloseShuts<T>(size: nat, acts: seq<Act<T>>)
    requires Possible(size, acts) && acts != [] && acts[|acts| - 1].Close?
    ensures After(size, acts).closed
  {
  }

  /**
    * In every run, a call that reports the close comes after one, and a Pop that does so only once everything
    * that was ever accepted has been delivered, in order; after a Close every other Pop delivers the next.
    */
  lemma ClosedMeansDrained<T>(size: nat, acts: seq<Act<T>>, a: Act<T>)
    requires Possible(size, acts) && Enabled(After(size, acts), a)
    ensures var m, out := After(size, acts), Next(After(size, acts), a);
            && (out.result == BufferClosed ==> m.closed)
            && (a.Pop? || a.ResumePop? ==>
                  && (out.result == BufferClosed <==> m.closed && m.delivered == m.accepted)
                  && (m.closed && |m.delivered| < |m.accepted| ==> out.result == Popped(m.accepted[|m.delivered|])))
  {
    EveryInterleaving(size, acts);
    var m := After(size, acts);
    assert |m.accepted| == |m.delivered| + |m.items|;
    if m.items == [] {
      assert m.delivered + m.items == m.delivered;
    }
  }

  /** In every run, a Push never waits or fails while the buffer is open and has room, nor a Pop while it holds an item. */
  lemma OpenServes<T>(size: nat, acts: seq<Act<T>>, a: Act<T>)
    requires Possible(size, acts) && Enabled(After(size, acts), a) && !After(size, acts).closed
    ensures var m, out := After(size, acts), Next(After(size, acts), a);
            var held := |m.accepted| - |m.delivered|;
            && (a.Push? || a.ResumePush? ==> if held < size then out.result == Pushed else out.result == Blocked)
            && (a.Pop? || a.ResumePop? ==>
                  if held > 0 then out.result == Popped(m.accepted[|m.delivered|]) else out.result == Blocked)
  {
    EveryInterleaving(size, acts);
    var m := After(size, acts);
    assert |m.accepted| == |m.delivered| + |m.items|;
  }
}
