/** Properties of the lock protocol, stated over the specification functions of the handle. */
module LockProperties {
  import opened Wrappers
  import opened Durations
  import opened KeyValue
  import opened Caches
  import opened LockErrors
  import opened Options
  import opened Locks

  /** The most loop attempts a retry count allows: the count itself, but at least one. */
  function MaxAttempts(retry: Int64): nat
  {
    if retry >= 1 then retry as int else 1
  }

  /** The ticks at which a loop with `n` listed ticks and `retry` retries can make an attempt. */
  function Reach(n: nat, retry: Int64): nat
  {
    if n < MaxAttempts(retry) then n else MaxAttempts(retry)
  }

  /** Outside blocking mode Lock is the single SetNEX, its error passed back unchanged. */
  lemma NonBlockingSingleAttempt(db: Db, connected: bool, key: string, token: string, s: Settings, ticks: seq<TickEvent>)
    requires !s.blocking
    ensures var (db1, e) := SetNEXOutcome(db, connected, key, token, s.expire);
            LockSpec(db, connected, key, token, s, ticks)
              == LockResult(if e.None? then None else Some(StoreErr(e.value)), db1, s.retry)
  {
  }

  /**
   * The cancellation and timeout checks come before the attempt of their tick: when the first
   * tick that is not Proceed is tick k, no attempt is made at or after it, and a context or
   * timeout error means the loop got as far as tick k.
   */
  lemma {:induction false} BoundaryPrecedesAttempt(db: Db, connected: bool, key: string, token: string,
                                                   expire: Duration, intervalMs: nat, retry: Int64,
                                                   ticks: seq<TickEvent>, k: nat)
    requires k <= |ticks| && !EventAt(ticks, k).Proceed?
    requires forall j :: 0 <= j < k ==> ticks[j].Proceed?
    ensures var r := LoopTryLockSpec(db, connected, key, token, expire, intervalMs, retry, ticks);
            && r.attempts <= k
            && (r.err.Some? && r.err.value != LockNotRetryErr ==>
                  r.attempts == k && r.err == Some(BoundaryError(EventAt(ticks, k))))
            && (k == 0 ==> r == LoopResult(Some(BoundaryError(EventAt(ticks, 0))), Elapse(db, intervalMs), retry, 0))
    decreases k
  {
    if k > 0 {
      assert EventAt(ticks, 0) == Proceed;
      var aged := Elapse(db, intervalMs);
      var (db1, e) := SetNEXOutcome(aged, connected, key, token, expire);
      var left := Dec(retry);
      if e.Some? && left > 0 {
        var tail := ticks[1..];
        assert EventAt(tail, k - 1) == EventAt(ticks, k);
        assert forall j :: 0 <= j < k - 1 ==> tail[j] == ticks[j + 1];
        BoundaryPrecedesAttempt(db1, connected, key, token, expire, intervalMs, left, tail, k - 1);
      }
    }
  }

  /**
   * Against a key that never expires, with every tick Proceed, the loop spends its whole retry
   * budget: max(1, retry) attempts, then LockNotRetryErr, the count left at 0 (or one below a
   * count that was already non-positive), and the holder untouched.
   */
  lemma {:induction false} RetryBudget(db: Db, connected: bool, key: string, token: string, expire: Duration,
                                       intervalMs: nat, retry: Int64, ticks: seq<TickEvent>)
    requires key in db && db[key].ttl.Persistent?
    requires forall j :: 0 <= j < |ticks| ==> ticks[j].Proceed?
    requires retry as int > MinInt64 && |ticks| >= MaxAttempts(retry)
    ensures var r := LoopTryLockSpec(db, connected, key, token, expire, intervalMs, retry, ticks);
            && r.err == Some(LockNotRetryErr)
            && r.attempts == MaxAttempts(retry)
            && r.retry as int == (if retry >= 1 then 0 else retry as int - 1)
            && key in r.db && r.db[key] == db[key]
    decreases |ticks|
  {
    assert EventAt(ticks, 0) == Proceed;
    var aged := Elapse(db, intervalMs);
    assert key in aged && aged[key] == db[key];
    var (db1, e) := SetNEXOutcome(aged, connected, key, token, expire);
    var left := Dec(retry);
    if left > 0 {
      var tail := ticks[1..];
      assert forall j :: 0 <= j < |tail| ==> tail[j] == ticks[j + 1];
      RetryBudget(db1, connected, key, token, expire, intervalMs, left, tail);
    }
  }

  /** In any store and under any ticks, the loop makes at most max(1, retry) attempts. */
  lemma {:induction false} AttemptsWithinBudget(db: Db, connected: bool, key: string, token: string, expire: Duration,
                                                intervalMs: nat, retry: Int64, ticks: seq<TickEvent>)
    requires retry as int > MinInt64
    ensures LoopTryLockSpec(db, connected, key, token, expire, intervalMs, retry, ticks).attempts <= MaxAttempts(retry)
    decreases |ticks|
  {
    var aged := Elapse(db, intervalMs);
    if EventAt(ticks, 0).Proceed? {
      var (db1, e) := SetNEXOutcome(aged, connected, key, token, expire);
      var left := Dec(retry);
      if e.Some? && left > 0 {
        AttemptsWithinBudget(db1, connected, key, token, expire, intervalMs, left, ticks[1..]);
      }
    }
  }

  /** One tick fewer and one retry fewer leave one reachable tick fewer. */
  lemma ReachStep(n: nat, retry: Int64)
    requires n >= 1 && retry >= 2
    ensures Reach(n - 1, retry - 1) == Reach(n, retry) - 1
  {
  }

  /** A holder whose lease outlives n ticker periods is still there, outliving n - 1, after one. */
  lemma HolderSurvivesTick(db: Db, key: string, intervalMs: nat, n: nat)
    requires key in db && n >= 1 && Outlives(db[key].ttl, intervalMs * n)
    ensures var aged := Elapse(db, intervalMs);
            key in aged && Outlives(aged[key].ttl, intervalMs * (n - 1))
  {
    assert intervalMs * n == intervalMs * (n - 1) + intervalMs;
  }

  /**
   * The retry count is decremented in place and never restored: after one blocking Lock spends
   * its budget against a key that never expires, the next Lock on the same handle makes its immediate
   * attempt and then a single loop attempt, which leaves the count at -1.
   */
  lemma RetryBudgetNotRestored(db: Db, connected: bool, key: string, token: string, s: Settings,
                               ticks1: seq<TickEvent>, ticks2: seq<TickEvent>)
    requires s.blocking && s.retryWaitingTime > 0 && s.retry >= 1
    requires key in db && db[key].ttl.Persistent?
    requires forall j :: 0 <= j < |ticks1| ==> ticks1[j].Proceed?
    requires forall j :: 0 <= j < |ticks2| ==> ticks2[j].Proceed?
    requires |ticks1| >= s.retry as int && |ticks2| >= 1
    ensures var r1 := LockSpec(db, connected, key, token, s, ticks1);
            var r2 := LockSpec(r1.db, connected, key, token, s.(retry := r1.retry), ticks2);
            && r1.err == Some(LockNotRetryErr) && r1.retry == 0
            && r2.err == Some(LockNotRetryErr) && r2.retry == -1
  {
    var ms := IntervalMillis(s.retryWaitingTime);
    assert SetNEXOutcome(db, connected, key, token, s.expire).0 == db;
    RetryBudget(db, connected, key, token, s.expire, ms, s.retry, ticks1);
    var r1 := LockSpec(db, connected, key, token, s, ticks1);
    assert SetNEXOutcome(r1.db, connected, key, token, s.expire).0 == r1.db;
    RetryBudget(r1.db, connected, key, token, s.expire, ms, 0, ticks2);
  }

  /**
   * A loop that starts while `key` is held, by anyone, fails and leaves the holder in place as
   * long as the holder's lease outlives every tick the loop looks at: the ticks at which it can
   * make an attempt and the one after them.
   */
  lemma {:induction false} LoopFailsWhileHeld(db: Db, connected: bool, key: string, token: string, expire: Duration,
                                              intervalMs: nat, retry: Int64, ticks: seq<TickEvent>)
    requires key in db && retry as int > MinInt64
    requires Outlives(db[key].ttl, intervalMs * (Reach(|ticks|, retry) + 1))
    ensures var r := LoopTryLockSpec(db, connected, key, token, expire, intervalMs, retry, ticks);
            r.err.Some? && key in r.db && r.db[key].value == db[key].value
    decreases |ticks|
  {
    var n := Reach(|ticks|, retry) + 1;
    HolderSurvivesTick(db, key, intervalMs, n);
    var aged := Elapse(db, intervalMs);
    if EventAt(ticks, 0).Proceed? {
      var (db1, e) := SetNEXOutcome(aged, connected, key, token, expire);
      assert e.Some? && db1 == aged;
      var left := Dec(retry);
      if left > 0 {
        ReachStep(|ticks|, retry);
        LoopFailsWhileHeld(db1, connected, key, token, expire, intervalMs, left, ticks[1..]);
      }
    }
  }

  /**
   * The lock is not re-entrant: Lock fails, and the holder keeps the key, while the key is held
   * by another token or by this very handle; in blocking mode as long as the lease outlives the
   * ticks the loop looks at.
   */
  lemma NotReentrant(db: Db, connected: bool, key: string, token: string, s: Settings, ticks: seq<TickEvent>)
    requires key in db
    requires s.blocking ==> s.retryWaitingTime > 0 && s.retry as int > MinInt64
                            && Outlives(db[key].ttl, IntervalMillis(s.retryWaitingTime) * (Reach(|ticks|, s.retry) + 1))
    ensures var r := LockSpec(db, connected, key, token, s, ticks);
            r.err.Some? && key in r.db && r.db[key].value == db[key].value
  {
    if s.blocking {
      LoopFailsWhileHeld(db, connected, key, token, s.expire, IntervalMillis(s.retryWaitingTime), s.retry, ticks);
    }
  }

  /**
   * Mutual exclusion: after one Lock succeeds, a Lock under any token fails, and the first
   * holder keeps the key, while the first lease outlives the ticks the second Lock looks at.
   */
  lemma MutualExclusion(db: Db, connected: bool, key: string, t1: string, t2: string,
                        s1: Settings, s2: Settings, ticks1: seq<TickEvent>, ticks2: seq<TickEvent>)
    requires s1.blocking && SetNEXOutcome(db, connected, key, t1, s1.expire).1.Some? ==> s1.retryWaitingTime > 0
    requires s2.blocking ==> s2.retryWaitingTime > 0 && s2.retry as int > MinInt64
                             && Milliseconds(s1.expire) as int > IntervalMillis(s2.retryWaitingTime) * (Reach(|ticks2|, s2.retry) + 1)
    requires LockSpec(db, connected, key, t1, s1, ticks1).err.None?
    ensures var db1 := LockSpec(db, connected, key, t1, s1, ticks1).db;
            var r2 := LockSpec(db1, connected, key, t2, s2, ticks2);
            && r2.err.Some? && Get(r2.db, key) == Some(t1)
            && (!s2.blocking && key != "" && t2 != "" && connected && Milliseconds(s2.expire) > 0 ==> r2.err == Some(StoreErr(Nil)))
  {
    var db1 := LockSpec(db, connected, key, t1, s1, ticks1).db;
    assert key in db1 && db1[key].ttl.Expires? && db1[key].ttl.ms == Milliseconds(s1.expire) as int by {
      var (dbA, e) := SetNEXOutcome(db, connected, key, t1, s1.expire);
      if e.Some? {
        var l := LoopTryLockSpec(dbA, connected, key, t1, s1.expire, IntervalMillis(s1.retryWaitingTime), s1.retry, ticks1);
        assert db1 == l.db;
      }
    }
    NotReentrant(db1, connected, key, t2, s2, ticks2);
  }

  /**
   * The blocking loop can win once the holder's lease runs out: a lease shorter than one ticker
   * period is gone at the first tick, and a Proceed tick then takes the key.
   */
  lemma AcquiresOnceLeaseRunsOut(db: Db, key: string, token: string, expire: Duration,
                                 intervalMs: nat, retry: Int64, ticks: seq<TickEvent>)
    requires key in db && db[key].ttl.Expires? && db[key].ttl.ms <= intervalMs
    requires key != "" && token != "" && Milliseconds(expire) > 0
    requires EventAt(ticks, 0) == Proceed
    ensures var r := LoopTryLockSpec(db, true, key, token, expire, intervalMs, retry, ticks);
            r.err.None? && r.attempts == 1 && r.retry == retry
  {
    assert key !in Elapse(db, intervalMs);
  }

  /**
   * Renewal keeps the lease alive across time: when the owner's lease has more than the trigger
   * left and the watchdog's period is at most the trigger, the renewal one period later succeeds
   * and the owner still holds the key with more than the trigger left, so the same holds at the
   * next period.
   */
  lemma RenewalOutlivesPeriod(db: Db, key: string, token: string, triggerTime: Duration, incrTime: Duration, period: nat)
    requires Get(db, key) == Some(token)
    requires PTtl(db, key) > Milliseconds(triggerTime) as int >= period
    requires Milliseconds(incrTime) > Milliseconds(triggerTime)
    ensures var (db', err) := DelayExpireOutcome(Elapse(db, period), true, key, token, triggerTime, incrTime);
            err.None? && Get(db', key) == Some(token) && PTtl(db', key) > Milliseconds(triggerTime) as int
  {
  }

  /** A successful Lock is undone by Unlock with the same token, which removes exactly the key. */
  lemma LockThenUnlock(db: Db, key: string, token: string, s: Settings, ticks: seq<TickEvent>)
    requires s.blocking && SetNEXOutcome(db, true, key, token, s.expire).1.Some? ==> s.retryWaitingTime > 0
    requires LockSpec(db, true, key, token, s, ticks).err.None?
    ensures var db1 := LockSpec(db, true, key, token, s, ticks).db;
            var (db2, err) := UnlockOutcome(db1, true, key, token);
            err.None? && key !in db2 && AgreeExcept(db1, db2, key)
  {
  }

  /** Ownership-gated release: Unlock under another token fails and leaves the holder in place. */
  lemma ForeignUnlockKeepsHolder(db: Db, connected: bool, key: string, holder: string, other: string)
    requires Get(db, key) == Some(holder) && holder != other
    ensures UnlockOutcome(db, connected, key, other).0 == db
    ensures UnlockOutcome(db, connected, key, other).1.Some?
  {
  }

  /**
   * A renewal by the owner with an increment beyond the trigger succeeds and leaves more than
   * the trigger on the lease; a renewal by anyone else fails and changes nothing.
   */
  lemma RenewalByOwnerOnly(db: Db, key: string, holder: string, token: string, triggerTime: Duration, incrTime: Duration)
    requires Get(db, key) == Some(holder)
    requires Milliseconds(incrTime) > Milliseconds(triggerTime) && Milliseconds(incrTime) > 0
    ensures var (db', err) := DelayExpireOutcome(db, true, key, token, triggerTime, incrTime);
            if token == holder
            then err.None? && Get(db', key) == Some(holder) && PTtl(db', key) > Milliseconds(triggerTime) as int
            else err == Some(DelayLockWithoutOwnershipErr) && db' == db
  {
  }
}
