/** The ring buffer's fields, changed in place under its lock (pkg/plugin/oss/ring_buffer.go). */
module RingBuffers {
  import opened Common
  import opened RingMonitor

  /** The buffer with its array, its indices and its threads; each method is one stretch of code under the lock. */
  class RingBuffer<T(==)> {
    const size: nat
    const buf: array<T>
    /** The empty pointer that a taken slot is set to. */
    const nothing: T
    var head: nat
    var tail: nat
    var count: nat
    var closed: bool
    var threads: map<nat, Thread<T>>
    ghost var accepted: seq<T>
    ghost var delivered: seq<T>

    ghost predicate Valid()
      reads this
    {
      && size > 0 && buf.Length == size
      && head < size && tail < size && count <= size
      && head == (if tail + count < size then tail + count else tail + count - size)
    }

    /** The held items, oldest first: from the tail, around the end of the array if need be. */
    ghost function Items(): seq<T>
      requires Valid()
      reads this, buf
    {
      if tail + count <= size then buf[tail..tail + count] else buf[tail..] + buf[..tail + count - size]
    }

    ghost function View(): Monitor<T>
      requires Valid()
      reads this, buf
    {
      Monitor(size, Items(), closed, threads, accepted, delivered)
    }

    /** NewRingBuffer; a size that is not positive panics. */
    constructor (size: nat, nothing: T)
      requires size > 0
      ensures this.size == size && Valid() && View() == Init(size) && fresh(buf)
    {
      this.size, this.nothing := size, nothing;
      buf := new T[size](_ => nothing);
      head, tail, count, closed := 0, 0, 0, false;
      threads, accepted, delivered := map[], [], [];
    }

    method Signal(notEmpty: bool, wake: nat)
      modifies this`threads
      ensures threads == (if notEmpty then SignalNotEmpty(old(threads), wake) else SignalNotFull(old(threads), wake))
    {
      if wake in threads {
        if notEmpty && threads[wake].PopAsleep? {
          threads := threads[wake := PopWoken];
        } else if !notEmpty && threads[wake].PushAsleep? {
          threads := threads[wake := PushWoken(threads[wake].event)];
        }
      }
    }

    /** Stores at the head. */
    method Store(event: T)
      requires Valid() && count < size
      modifies this`head, this`count, buf
      ensures Valid() && Items() == old(Items()) + [event]
    {
      buf[head] := event;
      WrapAround(head + 1, size);
      head := (head + 1) % size;
      count := count + 1;
    }

    /** Takes from the tail. */
    method Take() returns (event: T)
      requires Valid() && count > 0
      modifies this`tail, this`count, buf
      ensures Valid() && event == old(Items())[0] && Items() == old(Items())[1..]
    {
      event := buf[tail];
      buf[tail] := nothing;
      WrapAround(tail + 1, size);
      tail := (tail + 1) % size;
      count := count - 1;
    }

    /** Push, from the test of its loop until it returns or waits. */
    method PushSection(t: nat, event: T, wake: nat) returns (r: Result<T>)
      requires Valid()
      modifies this, buf
      ensures Valid() && Outcome(View(), r) == RunPush(old(View()), t, event, wake)
    {
      if count == size {
        if closed {
          threads := threads[t := Idle];
          return BufferClosed;
        }
        threads := threads[t := PushAsleep(event)];
        return Blocked;
      }
      if closed {
        threads := threads[t := Idle];
        return BufferClosed;
      }
      hide SignalNotEmpty;
      Store(event);
      accepted := accepted + [event];
      threads := threads[t := Idle];
      Signal(true, wake);
      assert Items() == old(Items()) + [event];
      return Pushed;
    }

    /** Pop, from the test of its loop until it returns or waits. */
    method PopSection(t: nat, wake: nat) returns (r: Result<T>)
      requires Valid()
      modifies this, buf
      ensures Valid() && Outcome(View(), r) == RunPop(old(View()), t, wake)
    {
      if count == 0 {
        if closed {
          threads := threads[t := Idle];
          return BufferClosed;
        }
        threads := threads[t := PopAsleep];
        return Blocked;
      }
      hide SignalNotFull;
      var event := Take();
      delivered := delivered + [event];
      assert Items() == old(Items())[1..];
      threads := threads[t := Idle];
      Signal(false, wake);
      assert Items() == old(Items())[1..];
      return Popped(event);
    }

    method CloseBuffer()
      requires Valid()
      modifies this
      ensures Valid() && View() == Next(old(View()), Close).m
    {
      closed := true;
      threads := WakeAll(threads);
    }
  }

  lemma {:induction false} WrapAround(x: nat, size: nat)
    requires size > 0 && x <= size
    ensures x % size == (if x == size then 0 else x)
  {
  }
}
