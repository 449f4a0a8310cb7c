/** How many failed logins the guard lets through, over whole runs. */
module GuardRuns {
  import opened Common
  import opened LoginGuard

  function Run(g: Settings, es: seq<Event>): map<string, Failures> {
    if es == [] then map[] else Step(Run(g, es[..|es| - 1]), g, es[|es| - 1]).fails
  }

  /** The clock never goes back; `now` is at or after its last reading. */
  predicate Monotone(es: seq<Event>, now: int) {
    es != [] ==>
      var before, e := es[..|es| - 1], es[|es| - 1];
      if e.Reset? then Monotone(before, now) else e.now <= now && Monotone(before, e.now)
  }

  /** The key's last event is an attempt that was let through. */
  predicate LastAllowed(g: Settings, es: seq<Event>, key: string) {
    es != []
    && var before, e := es[..|es| - 1], es[|es| - 1];
       if e.key == key then e.Allow? && Step(Run(g, before), g, e).ok else LastAllowed(g, before, key)
  }

  /** Every failure of the key directly follows an attempt that was let through. */
  predicate Attempted(g: Settings, es: seq<Event>, key: string) {
    es != [] ==>
      var before, e := es[..|es| - 1], es[|es| - 1];
      Attempted(g, before, key) && (e.Fail? && e.key == key ==> LastAllowed(g, before, key))
  }

  /** The key's failures between two times, ends included, since it was last reset. */
  function Failed(es: seq<Event>, key: string, from: int, to: int): nat {
    if es == [] then 0
    else
      var before, e := es[..|es| - 1], es[|es| - 1];
      if e.Reset? && e.key == key then 0
      else Failed(before, key, from, to) + (if e.Fail? && e.key == key && from <= e.now <= to then 1 else 0)
  }

  /** The failure that locks: a limit of one locks on the second, like a limit of two. */
  function LocksAt(g: Settings): int {
    if g.maxFails < 2 then 2 else g.maxFails
  }

  lemma {:induction false} AllowedIsUnlocked(g: Settings, es: seq<Event>, key: string)
    requires LastAllowed(g, es, key)
    ensures key in Run(g, es) ==> !Run(g, es)[key].locked
  {
    if es[|es| - 1].key != key {
      AllowedIsUnlocked(g, es[..|es| - 1], key);
    }
  }

  // ----- The account of a stretch no longer than the window -----

  /**
    * What the key's record says about its failures since `from`: they belong to the record's own period,
    * or to that and the tail of one unlocked period before it, whose first failure came before `from`.
    */
  predicate Account(fails: map<string, Failures>, g: Settings, key: string, from: int, failed: nat) {
    if key !in fails then failed <= LocksAt(g) - 2
    else
      var f := fails[key];
      if f.locked then if f.start < from then failed == 0 else failed <= 2 * LocksAt(g) - 2
      else 1 <= f.count < LocksAt(g) && failed <= (if f.start < from then f.count - 1 else LocksAt(g) - 2 + f.count)
  }

  lemma AccountKept(fails: map<string, Failures>, g: Settings, e: Event, key: string, from: int, to: int, failed: nat)
    requires Account(fails, g, key, from, failed) && g.maxFails > 0 && to <= from + g.window
    requires !e.Reset? ==> e.now <= to
    requires !e.Reset? && e.now < from ==> failed == 0
    requires e.Fail? && e.key == key && key in fails ==> !fails[key].locked
    ensures var counted := if e.Reset? && e.key == key then 0
                           else failed + (if e.Fail? && e.key == key && from <= e.now <= to then 1 else 0);
            Account(Step(fails, g, e).fails, g, key, from, counted)
  {
  }

  lemma {:induction false} NoneYet(es: seq<Event>, key: string, from: int, to: int, now: int)
    requires Monotone(es, now) && now < from
    ensures Failed(es, key, from, to) == 0
  {
    if es != [] {
      var e := es[|es| - 1];
      NoneYet(es[..|es| - 1], key, from, to, if e.Reset? then now else e.now);
    }
  }

  lemma {:induction false} RunAccount(g: Settings, es: seq<Event>, key: string, from: int, to: int)
    requires g.maxFails > 0 && to <= from + g.window
    requires Monotone(es, to) && Attempted(g, es, key)
    ensures Account(Run(g, es), g, key, from, Failed(es, key, from, to))
  {
    hide Account, Step;
    if es == [] {
      FreshAccount(g, key, from);
    } else {
      var before, e := es[..|es| - 1], es[|es| - 1];
      if !e.Reset? {
        MonotoneLater(before, e.now, to);
        if e.now < from {
          NoneYet(before, key, from, to, e.now);
        }
      }
      RunAccount(g, before, key, from, to);
      if e.Fail? && e.key == key {
        AllowedIsUnlocked(g, before, key);
      }
      AccountKept(Run(g, before), g, e, key, from, to, Failed(before, key, from, to));
    }
  }

  lemma FreshAccount(g: Settings, key: string, from: int)
    ensures Account(map[], g, key, from, 0)
  {
  }

  lemma {:induction false} MonotoneLater(es: seq<Event>, now: int, later: int)
    requires Monotone(es, now) && now <= later
    ensures Monotone(es, later)
  {
    if es != [] && es[|es| - 1].Reset? {
      MonotoneLater(es[..|es| - 1], now, later);
    }
  }

  /**
    * If each failure directly follows an attempt that was let through, any stretch no longer than the window
    * holds, between resets, at most two fewer failures than twice the number that locks.
    */
  lemma {:induction false} FailuresBounded(g: Settings, es: seq<Event>, key: string, from: int, to: int, now: int)
    requires g.maxFails > 0 && g.window > 0 && to <= from + g.window
    requires Monotone(es, now) && Attempted(g, es, key)
    ensures Failed(es, key, from, to) <= 2 * LocksAt(g) - 2
  {
    hide Step, Run, Account;
    if es != [] {
      var before, e := es[..|es| - 1], es[|es| - 1];
      if e.Reset? {
        FailuresBounded(g, before, key, from, to, now);
      } else if e.now > to {
        FailuresBounded(g, before, key, from, to, e.now);
      } else {
        RunAccount(g, es, key, from, to);
        AccountBounds(Run(g, es), g, key, from, Failed(es, key, from, to));
      }
    }
  }

  lemma AccountBounds(fails: map<string, Failures>, g: Settings, key: string, from: int, failed: nat)
    requires Account(fails, g, key, from, failed)
    ensures failed <= 2 * LocksAt(g) - 2
  {
  }

  // ----- Locking -----

  function RunOn(fails: map<string, Failures>, g: Settings, es: seq<Event>): map<string, Failures> {
    if es == [] then fails else Step(RunOn(fails, g, es[..|es| - 1]), g, es[|es| - 1]).fails
  }

  /** No reset of the key, and every clock reading between two times. */
  predicate Within(es: seq<Event>, key: string, from: int, to: int) {
    forall e :: e in es ==> if e.Reset? then e.key != key else from <= e.now <= to
  }

  /** Within one window a key without failures is locked exactly once it has as many as lock, whatever other keys do. */
  lemma {:induction false} LockedIff(fails: map<string, Failures>, g: Settings, es: seq<Event>, key: string, from: int)
    requires key !in fails && g.maxFails > 0 && g.window > 0 && Within(es, key, from, from + g.window)
    ensures var after, failed := RunOn(fails, g, es), Failed(es, key, from, from + g.window);
            && (key in after <==> failed > 0)
            && (key in after ==> from <= after[key].start <= from + g.window)
            && (key in after && after[key].locked <==> failed >= LocksAt(g))
            && (0 < failed < LocksAt(g) ==> after[key].count == failed)
  {
    if es != [] {
      assert es[|es| - 1] in es;
      LockedIff(fails, g, es[..|es| - 1], key, from);
    }
  }

  predicate LockedAt(fails: map<string, Failures>, key: string, at: int) {
    key in fails && fails[key].locked && fails[key].start >= at
  }

  lemma {:induction false} StaysLocked(fails: map<string, Failures>, g: Settings, es: seq<Event>, key: string, at: int)
    requires LockedAt(fails, key, at) && Within(es, key, at, at + g.window) && g.window > 0
    ensures LockedAt(RunOn(fails, g, es), key, at)
  {
    if es != [] {
      assert es[|es| - 1] in es;
      StaysLocked(fails, g, es[..|es| - 1], key, at);
    }
  }

  /** Once locked, no attempt is let through for a window, whatever happens meanwhile short of a reset. */
  lemma LockedOut(fails: map<string, Failures>, g: Settings, es: seq<Event>, key: string, at: int, now: int)
    requires LockedAt(fails, key, at) && Within(es, key, at, at + g.window) && g.window > 0 && now <= at + g.window
    ensures !Step(RunOn(fails, g, es), g, Allow(key, now)).ok
  {
    StaysLocked(fails, g, es, key, at);
  }

  /** Within one window of a key without failures, an attempt is let through exactly until as many as lock have come. */
  lemma PassesIff(fails: map<string, Failures>, g: Settings, es: seq<Event>, key: string, from: int, now: int)
    requires key !in fails && g.maxFails > 0 && g.window > 0 && Within(es, key, from, from + g.window)
    requires from <= now <= from + g.window
    ensures Step(RunOn(fails, g, es), g, Allow(key, now)).ok <==> Failed(es, key, from, from + g.window) < LocksAt(g)
  {
    LockedIff(fails, g, es, key, from);
  }

  /** Attempts and other keys' events, up to this time. */
  predicate NoFailureUntil(es: seq<Event>, key: string, now: int) {
    forall e :: e in es ==> (e.key == key ==> e.Allow?) && (!e.Reset? ==> e.now <= now)
  }

  /** A lock is over, for good, exactly once more than a window has passed since it began. */
  lemma {:induction false} LockEndsIff(
    fails: map<string, Failures>, g: Settings, es: seq<Event>, key: string, at: int, now: int)
    requires key in fails && fails[key].locked && fails[key].start == at && g.window > 0
    requires NoFailureUntil(es, key, now)
    ensures Step(RunOn(fails, g, es), g, Allow(key, now)).ok <==> now - at > g.window
  {
    LockUnlessOver(fails, g, es, key, at, now);
  }

  lemma {:induction false} LockUnlessOver(
    fails: map<string, Failures>, g: Settings, es: seq<Event>, key: string, at: int, now: int)
    requires key in fails && fails[key].locked && fails[key].start == at && NoFailureUntil(es, key, now)
    ensures var after := RunOn(fails, g, es);
            if key in after then after[key] == fails[key] else now - at > g.window
  {
    if es != [] {
      assert es[|es| - 1] in es;
      LockUnlessOver(fails, g, es[..|es| - 1], key, at, now);
    }
  }

  // ----- The bound is reached -----

  /** So many attempts at one time, all failing. */
  function Volley(key: string, n: nat, now: int): seq<Event> {
    if n == 0 then [] else Volley(key, n - 1, now) + [Allow(key, now), Fail(key, now)]
  }

  lemma AppendPair(g: Settings, es: seq<Event>, key: string, now: int)
    ensures var pair := es + [Allow(key, now), Fail(key, now)];
            && pair[..|pair| - 1] == es + [Allow(key, now)] && (es + [Allow(key, now)])[..|es|] == es
            && Run(g, pair) == Step(Step(Run(g, es), g, Allow(key, now)).fails, g, Fail(key, now)).fails
  {
    hide Step;
    var allow := es + [Allow(key, now)];
    var pair := es + [Allow(key, now), Fail(key, now)];
    assert pair[..|pair| - 1] == allow && allow[..|allow| - 1] == es;
    assert Run(g, allow) == Step(Run(g, es), g, Allow(key, now)).fails;
    assert Run(g, pair) == Step(Run(g, allow), g, Fail(key, now)).fails;
  }

  /** One more attempt that fails, when the key is not locked. */
  lemma PairCounts(g: Settings, es: seq<Event>, key: string, now: int, from: int, to: int)
    requires Monotone(es, now) && Attempted(g, es, key) && from <= to
    requires key in Run(g, es) ==> !Run(g, es)[key].locked
    ensures var pair := es + [Allow(key, now), Fail(key, now)];
            && Monotone(pair, now) && Attempted(g, pair, key)
            && Failed(pair, key, from, to) == Failed(es, key, from, to) + (if from <= now <= to then 1 else 0)
  {
    hide Run;
    AppendPair(g, es, key, now);
    var allow := es + [Allow(key, now)];
    var pair := es + [Allow(key, now), Fail(key, now)];
    assert Monotone(allow, now) && Attempted(g, allow, key) && Failed(allow, key, from, to) == Failed(es, key, from, to);
    assert LastAllowed(g, allow, key);
  }

  /** Failures that do not reach the lock just count up. */
  lemma {:induction false} VolleyCounts(g: Settings, es: seq<Event>, key: string, n: nat, now: int, from: int, to: int)
    requires Monotone(es, now) && Attempted(g, es, key) && from <= to
    requires var run := Run(g, es);
             && key in run && !run[key].locked && 0 <= now - run[key].start <= g.window && run[key].count + n < g.maxFails
    ensures var all := es + Volley(key, n, now);
            && Monotone(all, now) && Attempted(g, all, key)
            && key in Run(g, all) && Run(g, all)[key] == Run(g, es)[key].(count := Run(g, es)[key].count + n)
            && Failed(all, key, from, to) == Failed(es, key, from, to) + (if from <= now <= to then n else 0)
  {
    hide Run, Monotone, Attempted, Failed;
    if n == 0 {
      assert es + Volley(key, n, now) == es;
    } else {
      VolleyCounts(g, es, key, n - 1, now, from, to);
      var most := es + Volley(key, n - 1, now);
      assert es + Volley(key, n, now) == most + [Allow(key, now), Fail(key, now)];
      PairCounts(g, most, key, now, from, to);
      AppendPair(g, most, key, now);
    }
  }

  /**
    * The bound is exact: one failure opens a period, all but one of those that lock follow just before it
    * ends, and just after it a new period admits as many as lock.
    */
  lemma BoundIsReached(g: Settings, key: string) returns (es: seq<Event>)
    requires g.maxFails >= 2 && g.window > 0
    ensures var from := g.window;
            && Monotone(es, from + 1) && Attempted(g, es, key)
            && Failed(es, key, from, from + 1) == 2 * LocksAt(g) - 2
  {
    hide Volley;
    var from, to, n := g.window, g.window + 1, g.maxFails;
    PairCounts(g, [], key, 0, from, to);
    AppendPair(g, [], key, 0);
    var first := [] + [Allow(key, 0), Fail(key, 0)];
    assert Run(g, first)[key] == Failures(1, 0, false) && Failed(first, key, from, to) == 0;
    MonotoneLater(first, 0, from);
    VolleyCounts(g, first, key, n - 2, from, from, to);
    var second := first + Volley(key, n - 2, from);
    MonotoneLater(second, from, to);
    PairCounts(g, second, key, to, from, to);
    AppendPair(g, second, key, to);
    var third := second + [Allow(key, to), Fail(key, to)];
    assert Run(g, third)[key] == Failures(1, to, false) && Failed(third, key, from, to) == n - 1;
    VolleyCounts(g, third, key, n - 2, to, from, to);
    var fourth := third + Volley(key, n - 2, to);
    PairCounts(g, fourth, key, to, from, to);
    es := fourth + [Allow(key, to), Fail(key, to)];
  }

  /** The advertised bound: no window holds more than two fewer failures than twice the limit. */
  ghost predicate AsAdvertised(g: Settings) {
    forall es: seq<Event>, key: string, from: int, to: int, now: int ::
      to <= from + g.window && Monotone(es, now) && Attempted(g, es, key) ==>
          Failed(es, key, from, to) <= 2 * g.maxFails - 2
  }

  /** It holds exactly for limits of at least two: a limit of one does not lock on the first failure. */
  lemma AdvertisedIff(g: Settings)
    requires g.maxFails > 0 && g.window > 0
    ensures AsAdvertised(g) <==> g.maxFails >= 2
  {
    hide Step;
    if g.maxFails >= 2 {
      forall es: seq<Event>, key: string, from: int, to: int, now: int |
        to <= from + g.window && Monotone(es, now) && Attempted(g, es, key)
        ensures Failed(es, key, from, to) <= 2 * g.maxFails - 2
      {
        FailuresBounded(g, es, key, from, to, now);
      }
    } else {
      assert Run(g, []) == map[];
      PairCounts(g, [], "", 0, 0, 0);
      assert Failed([] + [Allow("", 0), Fail("", 0)], "", 0, 0) == 1;
    }
  }
}
