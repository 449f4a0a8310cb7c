/** The guard against guessing passwords at the admin login (pkg/admin/auth.go). Times are nanoseconds. */
module LoginGuard {
  import opened Common

  const DEFAULT_MAX_FAILS: int := 5
  const DEFAULT_WINDOW: int := 60_000_000_000

  /** The failures of a key since `start`, or the time since which it is locked. */
  datatype Failures = Failures(count: int, start: int, locked: bool)

  datatype Settings = Settings(maxFails: int, window: int)

  /** Limits that are not positive are replaced by the defaults. */
  function Configure(maxFails: int, window: int): Settings {
    Settings(if maxFails <= 0 then DEFAULT_MAX_FAILS else maxFails, if window <= 0 then DEFAULT_WINDOW else window)
  }

  datatype Event = Allow(key: string, now: int) | Fail(key: string, now: int) | Reset(key: string)

  datatype Outcome = Outcome(fails: map<string, Failures>, ok: bool)

  function AddFailure(f: Failures, g: Settings, now: int): Failures {
    if now - f.start > g.window then Failures(1, now, false)
    else if f.count + 1 >= g.maxFails then Failures(0, now, true)
    else f.(count := f.count + 1)
  }

  function Step(fails: map<string, Failures>, g: Settings, e: Event): Outcome {
    match e
    case Allow(key, now) =>
      if key !in fails then Outcome(fails, true)
      else if now - fails[key].start > g.window then Outcome(fails - {key}, true)
      else Outcome(fails, !fails[key].locked)
    case Fail(key, now) =>
      Outcome(fails[key := if key in fails then AddFailure(fails[key], g, now) else Failures(1, now, false)], true)
    case Reset(key) => Outcome(fails - {key}, true)
  }

  // ----- The guard that is updated in place -----

  /** `key` tells the records of a guard apart. */
  class FailureRecord {
    ghost const key: string
    var count: int
    var start: int
    var locked: bool

    ghost function View(): Failures
      reads this
    {
      Failures(count, start, locked)
    }

    constructor (now: int, ghost key: string)
      ensures View() == Failures(1, now, false) && this.key == key
    {
      count, start, locked := 1, now, false;
      this.key := key;
    }
  }

  class MemoryLoginGuard {
    const maxFails: int
    const window: int
    var fails: map<string, FailureRecord>

    ghost predicate Valid()
      reads this
    {
      forall k :: k in fails ==> fails[k].key == k
    }

    function Limits(): Settings {
      Settings(maxFails, window)
    }

    ghost function View(): map<string, Failures>
      reads this, fails.Values
    {
      map k | k in fails :: fails[k].View()
    }

    constructor (maxFails: int, window: int)
      ensures Valid() && View() == map[] && Limits() == Configure(maxFails, window)
      ensures this.maxFails == (if maxFails > 0 then maxFails else 5)
      ensures this.window == (if window > 0 then window else 60_000_000_000)
    {
      if maxFails <= 0 {
        this.maxFails := 5;
      } else {
        this.maxFails := maxFails;
      }
      if window <= 0 {
        this.window := 60_000_000_000;
      } else {
        this.window := window;
      }
      fails := map[];
    }

    method AllowAttempt(key: string, now: int) returns (ok: bool)
      requires Valid()
      modifies this`fails
      ensures Valid() && Outcome(View(), ok) == Step(old(View()), Limits(), Allow(key, now))
    {
      if key !in fails {
        return true;
      }
      var r := fails[key];
      if now - r.start > window {
        ClearFailures(key);
        return true;
      }
      return !r.locked;
    }

    method FailAttempt(key: string, now: int)
      requires Valid()
      modifies this, fails.Values
      ensures Valid() && View() == Step(old(View()), Limits(), Fail(key, now)).fails
      ensures forall o :: o in fails.Values ==> o in old(fails.Values) || fresh(o)
    {
      if key !in fails || now - fails[key].start > window {
        StartRecord(key, now);
        return;
      }
      ghost var before := View();
      var r := fails[key];
      r.count := r.count + 1;
      if r.count >= maxFails {
        r.locked := true;
        r.start := now;
        r.count := 0;
      }
      assert View() == before[key := r.View()];
    }

    method StartRecord(key: string, now: int)
      requires Valid()
      modifies this`fails
      ensures Valid() && View() == old(View())[key := Failures(1, now, false)]
      ensures forall o :: o in fails.Values ==> o in old(fails.Values) || fresh(o)
    {
      ghost var before := View();
      var r := new FailureRecord(now, key);
      fails := fails[key := r];
      assert View() == before[key := r.View()];
    }

    method ClearFailures(key: string)
      requires Valid()
      modifies this`fails
      ensures Valid() && View() == Step(old(View()), Limits(), Reset(key)).fails
    {
      ghost var before := View();
      fails := fails - {key};
      assert View() == before - {key};
    }
  }
}
