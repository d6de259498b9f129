# Redis distributed lock (zlx2019/sugar `locks`), modelled in Dafny

The `locks` package of sugar implements a distributed lock over Redis. A lock handle
(`RedisDistributedLock`) takes the lock by writing a random token under the lock's key with
`SET key token PX <lease> NX`. It releases the lock with a Lua script that deletes the key only
when it still holds the handle's token. In blocking mode a failed first attempt is retried on a
ticker until one of these happens:

- an attempt succeeds;
- the caller's context is done;
- the blocking time runs out;
- the retry count is used up.

An optional watchdog renews the lease with a second Lua script while the lock is held. Unlock
stops the watchdog.

The model has these parts:

- **Redis** (`KeyValue`). A map from key to value and remaining lifetime in milliseconds. It
  covers the commands the lock uses: GET, DEL, PTTL, PEXPIRE and SET PX NX. `Elapse` lets
  wall-clock time pass, which expires keys.
- **Lua scripts** (`Scripts`). The two scripts as atomic store transformers.
- **Cache template** (`Caches`). A `RedisTemplate` class whose `db` field is the server state
  that all handles share. Its methods are `SetNEX`, `Eval` and `Advance`. A `connected` flag
  stands for transport failure.
- **Options** (`Options`). The option record as a value (`Settings`) and as a class updated in
  place (`LockOptions`), with the `With*` setters and `optionWithDefault`.
- **Lock handle** (`Locks`). A class holding the options, the shared template, the key and the
  token. Each imperative operation is proved against a pure specification function:
  `LoopTryLockSpec`, `LockSpec`, `UnlockOutcome` and `DelayExpireOutcome`.
- **Properties** (`LockProperties`). Lemmas relating the specification functions.
- **Scenarios** (`Scenarios`). End-to-end runs of handles over one store.

Go's `time.Duration` is a 64-bit count of nanoseconds (`Durations.Int64`).
`Duration.Milliseconds` truncates toward zero. The retry decrement wraps around at the 64-bit
boundary. Time is reified:

- the blocking loop receives the sequence of what its `select` sees at each tick (`TickEvent`);
- the store ages by one ticker period before each tick;
- each tick of the watchdog's ticker is one call of `WatchDogTick`.

## Model

| member | source | states |
|---|---|---|
| Durations.Milliseconds | caches/redis.go:137 | `Duration.Milliseconds` truncates toward zero: the result's magnitude is the whole number of ms in the magnitude of `d`, and it is positive (negative) exactly when `d` is at least one ms (at most minus one ms) |
| Durations.Dec | locks/redis.go:111 | `lock.retry -= 1` on a 64-bit int: the result is `x - 1` modulo 2^64 |
| KeyValue.Get | locks/script.go:13 | GET returns a value exactly when the key exists, and it returns the stored value |
| KeyValue.PTtl | locks/script.go:31 | PTTL is -2 exactly for a missing key, -1 exactly for a key without expiry, and positive exactly for an expiring key, for which it is the remaining lifetime in ms |
| KeyValue.Del | locks/script.go:14 | DEL removes exactly the key, leaves every other entry as it was, and counts 1 when the key existed and 0 otherwise |
| KeyValue.PExpire | locks/script.go:35 | PEXPIRE returns 0 and changes nothing for a missing key; it returns 1 after setting a positive lifetime, or after deleting the key when the lifetime is not positive |
| KeyValue.SetPxNx | caches/redis.go:137 | SET PX NX succeeds exactly when the lifetime is positive and the key is absent, and then stores the value with that lifetime. Otherwise the store is unchanged: a non-positive lifetime gives an invalid-expire error, checked first, and an existing key gives Nil |
| KeyValue.Elapse | caches/redis.go:137 | after `ms` ms a key survives exactly when its lifetime exceeds `ms`; survivors keep their value and have `ms` less to live; persistent keys stay persistent |
| Scripts.UnlockLuaScript | locks/script.go:12-18 | reply 1 exactly when the key holds the token, and then the key alone is deleted; otherwise reply 0 and the store is unchanged |
| Scripts.LockExpireDelayScript | locks/script.go:23-38 | reply 1 exactly when the key holds the token. Otherwise reply 0 and no change. An owned key with more than `trigger` ms left is unchanged. One at or below `trigger` gets a lifetime of `incr` ms, or is deleted when `incr` is not positive |
| Scripts.ScriptsTouchOnlyTheirKey | locks/script.go:10-38 | both scripts leave every key other than KEYS[1] as it was |
| Scripts.ScriptsNeverRewriteValues | locks/script.go:10-38 | no script stores a new value: every key keeps its value or disappears |
| Scripts.RenewalLeavesLeaseAboveTrigger | locks/script.go:23-38 | an owner's renewal with an increment above the trigger succeeds, and the owner keeps the key with more than `trigger` ms left |
| Scripts.ReleaseIsFinal | locks/script.go:10-38 | after the owner's release succeeds, both scripts return 0 for that owner and change nothing |
| Caches.SetNEXOutcome | caches/redis.go:130-142 | an empty key or value fails before any command. Success happens exactly when both are non-empty, the server is reachable, the key is absent and the lease is at least one ms; the key then holds the value with the lease in whole ms. Other keys are untouched and a failure changes nothing. An unreachable server gives a connection error, a lease under one ms an invalid-expire error, and an existing key Nil |
| Caches.EvalOutcome | caches/redis.go:148-150 | an unreachable server gives a connection error and no change; otherwise the script's reply and store |
| Caches.RedisTemplate.constructor | caches/redis.go:29-36 | a template over the given server state, reachable |
| Caches.RedisTemplate.SetNEX | caches/redis.go:130-142 | updates the shared state and returns the error as `SetNEXOutcome` describes |
| Caches.RedisTemplate.Eval | caches/redis.go:148-150 | updates the shared state and returns the reply as `EvalOutcome` describes |
| Caches.RedisTemplate.Advance | caches/redis.go:137 | the shared state becomes the state `ms` ms later |
| Caches.SetNEXExcludesOthers | caches/redis.go:128-142 | once one value holds the key, SetNEX of any value for it fails, and the first value stays |
| Options.Applied | locks/option.go:62-102 | each option closure writes exactly its own field with its argument (or `true`), and every other field is unchanged |
| Options.ApplyAll | locks/redis.go:43-45 | running the options never touches the watchdog status or cancel function |
| Options.LastSetterWins | locks/redis.go:43-45 | of several options for one field, the last in argument order decides its value |
| Options.UnsetFieldKeepsValue | locks/redis.go:43-45 | a field no option names keeps its value |
| Options.SleepBounds | locks/option.go:123 | the whole-ms quotient of the blocking time by the retry count is at most the blocking time, its product with the count fits in it, and it is zero exactly when the ms count is below the retry count |
| Options.DefaultRetryWaitingTime | locks/option.go:121-126 | the default interval is a whole number of ms between 0 and the blocking time; `retry` intervals fit in the blocking time; it is zero exactly when the blocking time in ms is below the retry count |
| Options.WithDefault | locks/option.go:106-127 | afterwards the lease is positive; in blocking mode the blocking time and retry count are positive and the interval is not negative; the mode and the watchdog state are kept |
| Options.DefaultLeaseEnablesWatchDog | locks/option.go:108-111 | a non-positive lease becomes 10 s and enables the watchdog |
| Options.ExplicitLeaseKeepsWatchDogFlag | locks/option.go:108-111 | a positive lease and the watchdog flag are kept |
| Options.BlockingDefaults | locks/option.go:113-119 | in blocking mode a non-positive blocking time becomes 3 s and a non-positive retry count 5; positive ones are kept |
| Options.DefaultRetryInterval | locks/option.go:121-126 | in blocking mode an unset interval becomes the blocking time in whole ms divided by the retry count, and it is zero exactly when the ms count is below the retry count |
| Options.ExplicitRetryIntervalKept | locks/option.go:121 | a positive interval is kept |
| Options.NonBlockingKeepsRetrySettings | locks/option.go:113-126 | outside blocking mode the blocking time, retry count and interval are left as set |
| Options.WithDefaultIdempotent | locks/option.go:106-127 | defaulting twice equals defaulting once |
| Options.ZeroRetryIntervalReachable | locks/option.go:121-126 | blocking mode with a 4 ms blocking time resolves to a zero retry interval |
| Options.LockOptions.constructor | locks/redis.go:37-41 | a fresh option record holds Go's zero value |
| Options.LockOptions.Apply | locks/option.go:62-102 | the record becomes `Applied` of its old value and the option |
| Options.LockOptions.OptionWithDefault | locks/option.go:106-127 | the record becomes `WithDefault` of its old value |
| Locks.LoopTryLockSpec | locks/redis.go:86-118 | never more attempts than ticks. Success means at least one attempt, with the key holding the token for the lease in whole ms. Retries-used-up means at least one attempt and a count at or below 0. Failures are retries-used-up, timeout or context errors. Other keys keep their values |
| Locks.LockSpec | locks/redis.go:52-77 | a positive retry interval is needed only when a blocking Lock's immediate attempt fails; success means the key holds the token; outside blocking mode the retry count is untouched; other keys keep their values |
| Locks.UnlockOutcome | locks/redis.go:188-210 | success happens exactly when the server is reachable and the key holds the token, and then only the key is deleted. A failure changes nothing and is the ownership error, or the connection error |
| Locks.DelayExpireOutcome | locks/redis.go:167-183 | success happens exactly when the server is reachable and the key holds the token. A failure changes nothing and is the renewal ownership error or the connection error. An owned lease above the trigger is unchanged. One at or below it gets `incr` ms when that is positive, and is deleted otherwise. Other keys are untouched |
| Locks.RedisDistributedLock.constructor | locks/redis.go:35-49 | the handle's options are the given options run in order on the zero record, then defaulted |
| Locks.RedisDistributedLock.TryLock | locks/redis.go:80-83 | one SetNEX of the token for the handle's lease |
| Locks.RedisDistributedLock.LoopTryLock | locks/redis.go:86-118 | the error, store and retry count are those of `LoopTryLockSpec` for the handle's settings; the count stays decremented |
| Locks.RedisDistributedLock.DoWatchDog | locks/redis.go:121-138 | the status becomes running and a cancel function is stored for a fresh, uncancelled watchdog |
| Locks.RedisDistributedLock.Lock | locks/redis.go:52-77 | the error, store and retry count are those of `LockSpec`; exactly when the lock was taken and the watchdog is enabled, a new watchdog starts |
| Locks.RedisDistributedLock.DelayExpire | locks/redis.go:167-183 | the store and the error are those of `DelayExpireOutcome` |
| Locks.RedisDistributedLock.WatchDogTick | locks/redis.go:152-161 | a stopped watchdog does nothing; a cancelled one stops and leaves the store alone; a live one renews the lease as `DelayExpireOutcome` describes |
| Locks.RedisDistributedLock.Unlock | locks/redis.go:188-210 | the store and the error are those of `UnlockOutcome`; the watchdog is cancelled exactly on success with the watchdog enabled and a cancel function stored, so after a successful Unlock a running watchdog is always cancelled |
| LockProperties.NonBlockingSingleAttempt | locks/redis.go:71-74 | outside blocking mode Lock makes one SetNEX and returns its error unchanged |
| LockProperties.BoundaryPrecedesAttempt | locks/redis.go:94-105 | when tick k is the first context or timeout tick, the loop makes at most k attempts. A context or timeout error means exactly k attempts and the error of tick k. At k = 0 the loop makes no attempt, and the store has aged by one period |
| LockProperties.RetryBudget | locks/redis.go:110-114 | against a key that never expires, with every tick proceeding, the loop makes max(1, retry) attempts, fails with retries-used-up, leaves the count at 0 (or one below a non-positive count) and keeps the holder |
| LockProperties.AttemptsWithinBudget | locks/redis.go:105-114 | in any store and under any ticks the loop makes at most max(1, retry) attempts |
| LockProperties.RetryBudgetNotRestored | locks/redis.go:111 | the count is not restored: after one blocking Lock uses up the count, the next Lock on the handle makes its immediate attempt and then a single loop attempt, which leaves the count at -1 |
| LockProperties.LoopFailsWhileHeld | locks/redis.go:86-118 | a loop started while the key is held fails, and keeps the holder, when the lease outlives every tick the loop looks at |
| LockProperties.NotReentrant | locks/lock_test.go:80-81 | Lock fails while the key is held, by another token or by the same handle; in blocking mode this needs the lease to outlive the loop's ticks |
| LockProperties.MutualExclusion | locks/redis.go:52-77 | after one Lock succeeds, a Lock under any token fails while the first lease outlives its ticks, and the first token keeps the key; outside blocking mode the failure is the Nil reply of the refused SET NX |
| LockProperties.AcquiresOnceLeaseRunsOut | locks/redis.go:94-109 | when the holder's lease is at most one ticker period, the first proceeding tick takes the lock with one attempt and the count untouched |
| LockProperties.RenewalOutlivesPeriod | locks/redis.go:152-161 | when the owner's lease exceeds the trigger and the watchdog period is at most the trigger, the renewal one period later succeeds and leaves more than the trigger again, so the lease stays alive from period to period |
| LockProperties.LockThenUnlock | locks/redis.go:188-210 | Unlock with the same token after a successful Lock succeeds and removes exactly the key |
| LockProperties.ForeignUnlockKeepsHolder | locks/redis.go:205-208 | Unlock under another token fails and leaves the store as it was |
| LockProperties.RenewalByOwnerOnly | locks/redis.go:167-183 | the owner's renewal with an increment above the trigger succeeds, and the owner still holds the key with more than the trigger left; anyone else's renewal fails with the ownership error and changes nothing |
| Scenarios.LeaseExpiryHandsOver | caches/redis.go:130-142 | with two handles on one key and 2 s leases: the first locks; the second gets Nil; after the lease runs out the second locks |
| Scenarios.ReleaseStopsWatchDog | locks/redis.go:188-199 | under the defaults a handle locks, is refused a second time, unlocks, and its watchdog then stops without touching the store |
| Scenarios.BlockingRelockRefused | locks/lock_test.go:70-88 | a blocking handle with a 10 s lease locks; a second Lock fails whatever its ticks; after Unlock it locks again |
| Scenarios.ZeroIntervalHandleLocksFreeKey | locks/redis.go:63-67 | a blocking handle whose defaulted retry interval is zero still locks a free key, because the immediate attempt succeeds before any ticker exists |
| Scenarios.NoRenewalAfterRelease | locks/redis.go:152-156 | after a successful Unlock on a handle with a running watchdog, the watchdog's next tick stops it and leaves the store as the release left it |
| Scenarios.RelockAfterLapseReachesSpin | locks/redis.go:121-125 | the state where the spin in doWatchDog waits on the old watchdog is reachable. A default handle locks. Its watchdog's renewal fails while the server is unreachable, and the lease lapses without Unlock. A new Lock would then take the key while the old watchdog is still running and uncancelled, so the spin lasts until the earlier Lock's context is done |

## Left out

- Goroutines and timers. The watchdog goroutine and the blocking loop's ticker and timeout
  channel have no threads or clocks here. The loop takes a sequence of tick events, and the
  watchdog's loop is one `WatchDogTick` call per tick. Interleavings of other clients between
  ticks are not modelled; only the passage of time is (one ticker period per tick).
- Sub-millisecond time. The store ages by the ticker period in whole ms. A key vanishes when
  its remaining time reaches 0 ms. Redis removes a key only once its clock has passed the expiry
  time, so it keeps the key up to 1 ms longer and can report PTTL 0 meanwhile.
- Watchdog ratios. The float products in `runningWatchDog` (locks/redis.go:143-147) are not
  modelled, because floating point is out of scope. `WatchDogTick` takes the trigger and
  increment durations as parameters.
- The compare-and-swap spin of `doWatchDog` (locks/redis.go:124-125) is modelled by its
  outcome only.
- Locks.RedisDistributedLock.Lock requires a positive retry interval when blocking mode's
  immediate attempt fails. The blocking loop then creates a ticker, and `time.NewTicker`
  panics on a zero period. `ZeroRetryIntervalReachable` shows that defaulting can produce a
  zero interval. `ZeroIntervalHandleLocksFreeKey` shows that such a handle still locks a free
  key.
- Locks.RedisDistributedLock.Lock requires that the spin in doWatchDog does not happen. The
  spin happens when the lock is taken while the previous watchdog is still running and
  uncancelled. The source then spins until that watchdog's context is done, which is when the
  earlier Lock's context ends. Cancelling it is not modelled, so a spin without end cannot be
  told apart from one that ends; `RelockAfterLapseReachesSpin` shows the state is reachable.
- Locks.RedisDistributedLock.LoopTryLock requires a positive retry interval, for the same
  `time.NewTicker` reason.
- Token generation. `randoms.RandomString(15)` is replaced by a token parameter. The
  constructor requires it to be non-empty, as a 15-character string is.
- The caller's context at the store. Lock's immediate attempt and Unlock's release pass the
  caller's context to go-redis, which refuses a command whose context is already done. Here
  only the blocking loop's ticks see the context, so a done context never fails those two
  commands.
- Lost replies. `ConnectionError` stands for a command that never took effect. A reply lost
  after the server applied SET or DEL, such as a read timeout, is not modelled. In the source
  a Lock can then report failure while its token holds the key.
- Context error wrapping. The `fmt.Errorf` around `ctx.Err()` is represented by the context
  error itself (`ContextErr`). The context is a tick event, not a parameter.
- Reply types. The `val.(int64)` assertions in Unlock and delayExpire always succeed here,
  because both scripts return Redis integers.
- The other cache template operations (Set, SetExpire, Get, Del, Exists, Keys, ExpireAdd,
  ExpireSetup, GetExpire) are not part of this model; the lock does not call them.
- Logging (`fmt.Println`, `fmt.Printf`) has no effect on the model.
- Default lease. The lease default is 10 s, as the code in locks/option.go:17 says. The
  comments there say 3 s.
- Renewal with a non-positive increment. `PEXPIRE` with a non-positive increment deletes the
  key, which is Redis's behaviour. The scripts model it.
