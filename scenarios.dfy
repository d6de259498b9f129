/** End-to-end runs of lock handles over one shared store. */
module Scenarios {
  import opened Wrappers
  import opened Durations
  import opened KeyValue
  import opened Caches
  import opened LockErrors
  import opened Options
  import opened Locks
  import LockProperties

  /**
   * Two handles on "job-1" with a 2s lease: the first acquires, the second is refused with the
   * store's Nil reply, and once the lease has run out the second acquires.
   */
  method LeaseExpiryHandsOver() returns (first: Option<LockError>, second: Option<LockError>, third: Option<LockError>)
    ensures first == None
    ensures second == Some(StoreErr(Nil))
    ensures third == None
  {
    var store := new RedisTemplate(map[]);
    assert ApplyAll(Zero, [WithExpire(2 * Second)]) == Zero.(expire := 2 * Second);
    var h1 := new RedisDistributedLock("job-1", store, "T1", [WithExpire(2 * Second)]);
    var h2 := new RedisDistributedLock("job-1", store, "T2", [WithExpire(2 * Second)]);
    first := h1.Lock([]);
    second := h2.Lock([]);
    store.Advance(2000);
    third := h2.Lock([]);
  }

  /**
   * With the default options (blocking off, 10s lease, watchdog on) a handle cannot take its own
   * lock twice, the holder's token releases it, and a watchdog tick after the release stops
   * without touching the store.
   */
  method ReleaseStopsWatchDog(triggerTime: Duration, incrTime: Duration)
      returns (locked: Option<LockError>, again: Option<LockError>, released: Option<LockError>, untouched: bool)
    ensures locked == None && again == Some(StoreErr(Nil)) && released == None && untouched
  {
    var store := new RedisTemplate(map[]);
    var h := new RedisDistributedLock("dog-lock-key", store, "T", []);
    locked := h.Lock([]);
    again := h.Lock([]);
    released := h.Unlock();
    var before := store.db;
    h.WatchDogTick(false, triggerTime, incrTime);
    untouched := store.db == before && h.options.status == Stop;
  }

  /**
   * A blocking handle with a 10s lease (default 3s blocking time, 5 retries, 600ms interval):
   * whatever the ticker and the context deliver, a second Lock while holding the key fails;
   * after Unlock the handle locks again.
   */
  method BlockingRelockRefused(ticks: seq<TickEvent>)
      returns (first: Option<LockError>, again: Option<LockError>, released: Option<LockError>, last: Option<LockError>)
    ensures first == None && again.Some? && released == None && last == None
  {
    var store := new RedisTemplate(map[]);
    var opts := [WithBlocking, WithExpire(10 * Second)];
    assert ApplyAll(Zero, opts) == Zero.(blocking := true, expire := 10 * Second) by {
      assert opts[..1] == [WithBlocking] && [WithBlocking][..0] == [];
    }
    assert DefaultRetryWaitingTime(3 * Second, 5) == 600 * Millisecond;
    var h := new RedisDistributedLock("lock2", store, "T", opts);
    first := h.Lock([]);
    var s := h.options.Snapshot();
    assert IntervalMillis(s.retryWaitingTime) == 600;
    LockProperties.NotReentrant(store.db, store.connected, "lock2", "T", s, ticks);
    again := h.Lock(ticks);
    released := h.Unlock();
    last := h.Lock([]);
  }

  /**
   * A blocking handle whose defaulted retry interval is zero (4 ms waiting time, 5 retries)
   * still locks a free key: the immediate attempt succeeds before any ticker is created.
   */
  method ZeroIntervalHandleLocksFreeKey() returns (locked: Option<LockError>, interval: Duration)
    ensures locked == None && interval == 0
  {
    var opts := [WithBlocking, WithBlockingWaitTime(4 * Millisecond)];
    Options.ZeroRetryIntervalReachable();
    assert ApplyAll(Zero, opts) == Zero.(blocking := true, blockingTime := 4 * Millisecond) by {
      assert opts[..1] == [WithBlocking] && [WithBlocking][..0] == [];
    }
    assert Milliseconds(DefaultExpire) > 0;
    var store := new RedisTemplate(map[]);
    var h := new RedisDistributedLock("lock4", store, "T", opts);
    interval := h.options.retryWaitingTime;
    locked := h.Lock([]);
  }

  /**
   * The state in which doWatchDog's spin waits on the old watchdog is reachable. A default
   * handle locks; its watchdog's renewal fails while the server is unreachable; the lease lapses
   * without Unlock. A Lock on the same handle would now take the key while its watchdog is still
   * running and uncancelled, so the spin lasts until the earlier Lock's context is done.
   */
  method RelockAfterLapseReachesSpin(triggerTime: Duration, incrTime: Duration)
      returns (locked: Option<LockError>, spins: bool)
    ensures locked == None && spins
  {
    var store := new RedisTemplate(map[]);
    var h := new RedisDistributedLock("dog-lock-key", store, "T", []);
    locked := h.Lock([]);
    store.connected := false;
    h.WatchDogTick(false, triggerTime, incrTime);
    store.Advance(10000);
    store.connected := true;
    spins := h.options.enabled && h.options.status == Running && !h.watchDogDone
             && LockSpec(store.db, store.connected, h.key, h.token, h.options.Snapshot(), []).err.None?;
  }

  /**
   * Once Unlock succeeds on a handle whose watchdog is running, the watchdog's next tick stops
   * it without renewing: no renewal happens after a release.
   */
  method NoRenewalAfterRelease(h: RedisDistributedLock, triggerTime: Duration, incrTime: Duration)
      returns (released: Option<LockError>)
    requires h.Valid() && h.options.status == Running
    modifies h, h.options, h.template
    ensures released == UnlockOutcome(old(h.template.db), old(h.template.connected), h.key, h.token).1
    ensures released.None? ==> h.options.status == Stop && h.template.db == UnlockOutcome(old(h.template.db), old(h.template.connected), h.key, h.token).0
  {
    released := h.Unlock();
    if released.None? {
      h.WatchDogTick(false, triggerTime, incrTime);
    }
  }
}
