/**
 * The Redis distributed lock handle (locks/redis.go). Timing is reified: the
 * ticks of the blocking loop's ticker are an input sequence saying what the
 * loop's `select` sees at each tick, and each tick of the watchdog's ticker is
 * one call of `WatchDogTick`.
 */
module Locks {
  import opened Wrappers
  import opened Durations
  import opened KeyValue
  import opened Scripts
  import opened Caches
  import opened LockErrors
  import opened Options

  /**
   * What the `select` of the blocking loop picks at one tick: the caller's context is done, the
   * waiting time is over, or neither (`default`). When both are ready Go picks either, so either
   * may appear. After the last listed tick the waiting time is taken to be over.
   */
  datatype TickEvent = Cancelled(cause: ContextError) | TimedOut | Proceed

  function EventAt(ticks: seq<TickEvent>, i: nat): TickEvent
  {
    if i < |ticks| then ticks[i] else TimedOut
  }

  /** The error the loop returns on a tick where the context or the timer fired. */
  function BoundaryError(ev: TickEvent): LockError
    requires !ev.Proceed?
  {
    if ev.Cancelled? then ContextErr(ev.cause) else LockBlockingTimeOutErr
  }

  /** The ticker's period in whole ms, the time the store ages between two ticks. */
  function IntervalMillis(retryWaitingTime: Duration): nat
    requires retryWaitingTime > 0
  {
    Milliseconds(retryWaitingTime) as int
  }

  /** The outcome of `loopTryLock`, with the number of SetNEX attempts it made. */
  datatype LoopResult = LoopResult(err: Option<LockError>, db: Db, retry: Int64, attempts: nat)

  /**
   * loopTryLock (locks/redis.go:86-118). At each tick the store first ages by one ticker period;
   * then a done context or an expired waiting time ends the loop before any attempt; otherwise
   * one SetNEX is tried, and a failure decrements the retry count, ending the loop at <= 0.
   */
  function LoopTryLockSpec(db: Db, connected: bool, key: string, token: string, expire: Duration,
                           intervalMs: nat, retry: Int64, ticks: seq<TickEvent>): (r: LoopResult)
    ensures r.attempts <= |ticks|
    ensures r.err.None? ==> r.attempts >= 1 && key in r.db && r.db[key].value == token
                            && r.db[key].ttl.Expires? && r.db[key].ttl.ms == Milliseconds(expire) as int
    ensures r.err == Some(LockNotRetryErr) ==> r.attempts >= 1 && r.retry <= 0
    ensures r.err.Some? ==> r.err.value in {LockNotRetryErr, LockBlockingTimeOutErr} || r.err.value.ContextErr?
    ensures forall k :: k in r.db && k != key ==> k in db && r.db[k].value == db[k].value
    decreases |ticks|
  {
    var aged := Elapse(db, intervalMs);
    var ev := EventAt(ticks, 0);
    if !ev.Proceed? then LoopResult(Some(BoundaryError(ev)), aged, retry, 0)
    else
      var (db1, e) := SetNEXOutcome(aged, connected, key, token, expire);
      if e.None? then LoopResult(None, db1, retry, 1)
      else
        var left := Dec(retry);
        if left <= 0 then LoopResult(Some(LockNotRetryErr), db1, left, 1)
        else
          var rest := LoopTryLockSpec(db1, connected, key, token, expire, intervalMs, left, ticks[1..]);
          rest.(attempts := rest.attempts + 1)
  }

  /** The outcome of `Lock` on the store and on the handle's retry count. */
  datatype LockResult = LockResult(err: Option<LockError>, db: Db, retry: Int64)

  /**
   * Lock before its deferred watchdog start (locks/redis.go:63-76): one SetNEX; on failure the
   * store error itself in non-blocking mode, the blocking loop otherwise.
   */
  function LockSpec(db: Db, connected: bool, key: string, token: string, s: Settings, ticks: seq<TickEvent>): (r: LockResult)
    requires s.blocking && SetNEXOutcome(db, connected, key, token, s.expire).1.Some? ==> s.retryWaitingTime > 0
    ensures r.err.None? ==> key in r.db && r.db[key].value == token
    ensures !s.blocking ==> r.retry == s.retry
    ensures forall k :: k in r.db && k != key ==> k in db && r.db[k].value == db[k].value
  {
    var (db1, e) := SetNEXOutcome(db, connected, key, token, s.expire);
    if e.None? then LockResult(None, db1, s.retry)
    else if !s.blocking then LockResult(Some(StoreErr(e.value)), db1, s.retry)
    else
      var l := LoopTryLockSpec(db1, connected, key, token, s.expire, IntervalMillis(s.retryWaitingTime), s.retry, ticks);
      LockResult(l.err, l.db, l.retry)
  }

  /**
   * How Unlock and delayExpire read a script reply: a store error as is, an int64 reply other
   * than 1 as the given ownership error, and 1 as success.
   */
  function OwnershipCheck(reply: Result<int, StoreError>, denied: LockError): Option<LockError>
  {
    match reply
    case Failure(e) => Some(StoreErr(e))
    case Success(v) => if v != 1 then Some(denied) else None
  }

  /** What Unlock (locks/redis.go:200-209) does to the store and returns. */
  function UnlockOutcome(db: Db, connected: bool, key: string, token: string): (r: (Db, Option<LockError>))
    ensures r.1.None? <==> connected && key in db && db[key].value == token
    ensures r.1.None? ==> key !in r.0 && AgreeExcept(db, r.0, key)
    ensures r.1.Some? ==> r.0 == db
    ensures r.1.Some? ==> r.1.value == (if connected then UnlockWithoutOwnershipErr else StoreErr(ConnectionError))
  {
    var (db', reply) := EvalOutcome(db, connected, UnlockCall(key, token));
    (db', OwnershipCheck(reply, UnlockWithoutOwnershipErr))
  }

  /** What delayExpire (locks/redis.go:167-183) does to the store and returns. */
  function DelayExpireOutcome(db: Db, connected: bool, key: string, token: string,
                              triggerTime: Duration, incrTime: Duration): (r: (Db, Option<LockError>))
    ensures r.1.None? <==> connected && key in db && db[key].value == token
    ensures r.1.Some? ==> r.0 == db
    ensures r.1.Some? ==> r.1.value == (if connected then DelayLockWithoutOwnershipErr else StoreErr(ConnectionError))
    ensures r.1.None? && PTtl(db, key) > Milliseconds(triggerTime) as int ==> r.0 == db
    ensures r.1.None? && PTtl(db, key) <= Milliseconds(triggerTime) as int && Milliseconds(incrTime) > 0 ==>
              r.0 == db[key := Entry(token, Expires(Milliseconds(incrTime) as int))]
    ensures r.1.None? && PTtl(db, key) <= Milliseconds(triggerTime) as int && Milliseconds(incrTime) <= 0 ==>
              key !in r.0
    ensures AgreeExcept(db, r.0, key)
  {
    var call := ExpireDelayCall(key, token, Milliseconds(triggerTime) as int, Milliseconds(incrTime) as int);
    var (db', reply) := EvalOutcome(db, connected, call);
    (db', OwnershipCheck(reply, DelayLockWithoutOwnershipErr))
  }

  /** RedisDistributedLock: one handle on the lock named `key`, owning it under `token`. */
  class RedisDistributedLock {
    /** The embedded LockOptions (with its WatchDog fields), updated in place. */
    const options: LockOptions
    const template: RedisTemplate
    const key: string
    const token: string
    /** Whether the context of the most recently started watchdog has been cancelled. */
    var watchDogDone: bool

    ghost predicate Valid()
      reads this, options
    {
      && token != ""
      && Resolved(options.Snapshot())
      && (options.status == Running ==> options.cancelFn.Some? && options.enabled)
    }

    /**
     * NewRedisDistributedLock (locks/redis.go:35-49): the options run in argument order on the
     * zero record, then the defaults are filled in. The token stands for the 15-character
     * random string the source draws.
     */
    constructor (key: string, template: RedisTemplate, token: string, opts: seq<LockOption>)
      requires token != ""
      ensures Valid()
      ensures this.key == key && this.template == template && this.token == token
      ensures fresh(options) && options.Snapshot() == Resolve(opts)
      ensures !watchDogDone
    {
      this.key := key;
      this.template := template;
      this.token := token;
      options := new LockOptions();
      watchDogDone := false;
      new;
      for i := 0 to |opts|
        invariant options.Snapshot() == ApplyAll(Zero, opts[..i]) && !watchDogDone
      {
        assert opts[..i + 1][..i] == opts[..i];
        options.Apply(opts[i]);
      }
      assert opts[..|opts|] == opts;
      options.OptionWithDefault();
    }

    /** tryLock: one SetNEX of the token for the lease. */
    method TryLock() returns (err: Option<StoreError>)
      modifies template`db
      ensures (template.db, err) == SetNEXOutcome(old(template.db), template.connected, key, token, options.expire)
    {
      err := template.SetNEX(key, token, options.expire);
    }

    /**
     * loopTryLock: retry on every tick until success, a done context, the waiting time, or the
     * retry count; the count lives in the handle and is not restored afterwards.
     * `time.NewTicker` panics on a non-positive period, hence the precondition.
     */
    method LoopTryLock(ticks: seq<TickEvent>) returns (err: Option<LockError>)
      requires options.retryWaitingTime > 0
      modifies template`db, options`retry
      ensures var r := LoopTryLockSpec(old(template.db), template.connected, key, token, options.expire,
                                       IntervalMillis(options.retryWaitingTime), old(options.retry), ticks);
              err == r.err && template.db == r.db && options.retry == r.retry
    {
      ghost var db0, retry0 := template.db, options.retry;
      var interval := IntervalMillis(options.retryWaitingTime);
      var i := 0;
      while true
        invariant 0 <= i <= |ticks|
        invariant var whole := LoopTryLockSpec(db0, template.connected, key, token, options.expire, interval, retry0, ticks);
                  var rest := LoopTryLockSpec(template.db, template.connected, key, token, options.expire, interval, options.retry, ticks[i..]);
                  whole.err == rest.err && whole.db == rest.db && whole.retry == rest.retry
        decreases |ticks| - i
      {
        assert EventAt(ticks[i..], 0) == EventAt(ticks, i);
        template.Advance(interval);
        var ev := EventAt(ticks, i);
        if ev.Cancelled? {
          return Some(ContextErr(ev.cause));
        }
        if ev.TimedOut? {
          return Some(LockBlockingTimeOutErr);
        }
        var e := TryLock();
        if e.None? {
          return None;
        }
        options.retry := Dec(options.retry);
        if options.retry <= 0 {
          return Some(LockNotRetryErr);
        }
        assert ticks[i..][1..] == ticks[i + 1..];
        i := i + 1;
      }
    }

    /**
     * doWatchDog (locks/redis.go:121-138), status part: `status` goes from stop to running and a
     * fresh cancel function is stored. The source spins until the status is stop, which ends only
     * when a running watchdog has been cancelled and exits; that exit is taken here first.
     */
    method DoWatchDog()
      requires Valid() && options.enabled
      requires options.status == Running ==> watchDogDone
      modifies this, options
      ensures Valid()
      ensures options.Snapshot() == old(options.Snapshot()).(status := Running, cancelFn := Some(CancelFunc))
      ensures !watchDogDone
    {
      if options.status == Running {
        options.status := Stop;
      }
      options.status := Running;
      options.cancelFn := Some(CancelFunc);
      watchDogDone := false;
    }

    /**
     * Lock (locks/redis.go:52-77): the immediate attempt, the blocking loop when enabled, and the
     * deferred watchdog start when the lock was taken and the watchdog is enabled.
     */
    method Lock(ticks: seq<TickEvent>) returns (err: Option<LockError>)
      requires Valid()
      requires options.blocking && SetNEXOutcome(template.db, template.connected, key, token, options.expire).1.Some? ==>
                 options.retryWaitingTime > 0
      requires options.enabled && options.status == Running && !watchDogDone ==>
                 LockSpec(template.db, template.connected, key, token, options.Snapshot(), ticks).err.Some?
      modifies this, options, template`db
      ensures Valid()
      ensures var r := LockSpec(old(template.db), template.connected, key, token, old(options.Snapshot()), ticks);
              var started := r.err.None? && old(options.enabled);
              && err == r.err && template.db == r.db
              && options.Snapshot() == old(options.Snapshot()).(
                   retry := r.retry,
                   status := if started then Running else old(options.status),
                   cancelFn := if started then Some(CancelFunc) else old(options.cancelFn))
              && watchDogDone == (if started then false else old(watchDogDone))
    {
      var e := TryLock();
      if e.None? {
        err := None;
      } else if !options.blocking {
        err := Some(StoreErr(e.value));
      } else {
        err := LoopTryLock(ticks);
      }
      if err.None? && options.enabled {
        DoWatchDog();
      }
    }

    /** delayExpire: the renewal script for the trigger and increment in whole ms, its reply interpreted. */
    method DelayExpire(triggerTime: Duration, incrTime: Duration) returns (err: Option<LockError>)
      modifies template`db
      ensures (template.db, err) == DelayExpireOutcome(old(template.db), template.connected, key, token, triggerTime, incrTime)
    {
      var trigger := Milliseconds(triggerTime);
      var incr := Milliseconds(incrTime);
      var reply := template.Eval(ExpireDelayCall(key, token, trigger as int, incr as int));
      if reply.Failure? {
        return Some(StoreErr(reply.error));
      }
      if reply.value != 1 {
        return Some(DelayLockWithoutOwnershipErr);
      }
      return None;
    }

    /**
     * One tick of the watchdog task (locks/redis.go:152-161 with the deferred reset at 132-134):
     * a done context (cancelled by Unlock, or the caller's) ends the task and resets the status;
     * otherwise delayExpire runs and its result is discarded.
     */
    method WatchDogTick(parentDone: bool, triggerTime: Duration, incrTime: Duration)
      requires Valid()
      modifies options`status, template`db
      ensures Valid()
      ensures old(options.status) == Stop ==> options.status == Stop && template.db == old(template.db)
      ensures old(options.status) == Running && (watchDogDone || parentDone) ==>
                options.status == Stop && template.db == old(template.db)
      ensures old(options.status) == Running && !(watchDogDone || parentDone) ==>
                options.status == Running
                && template.db == DelayExpireOutcome(old(template.db), template.connected, key, token, triggerTime, incrTime).0
    {
      if options.status == Stop {
        return;
      }
      if watchDogDone || parentDone {
        options.status := Stop;
        return;
      }
      var _ := DelayExpire(triggerTime, incrTime);
    }

    /**
     * Unlock (locks/redis.go:188-210): the release script; on success, with the watchdog enabled
     * and a cancel function stored, the watchdog's context is cancelled.
     */
    method Unlock() returns (err: Option<LockError>)
      requires Valid()
      modifies this, template`db
      ensures Valid()
      ensures (template.db, err) == UnlockOutcome(old(template.db), template.connected, key, token)
      ensures watchDogDone == (old(watchDogDone) || (err.None? && options.enabled && options.cancelFn.Some?))
      ensures err.None? && options.status == Running ==> watchDogDone
    {
      var reply := template.Eval(UnlockCall(key, token));
      if reply.Failure? {
        err := Some(StoreErr(reply.error));
      } else if reply.value != 1 {
        err := Some(UnlockWithoutOwnershipErr);
      } else {
        err := None;
      }
      if err.None? && options.enabled && options.cancelFn.Some? {
        watchDogDone := true;
      }
    }
  }
}
