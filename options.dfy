/**
 * The lock's configuration (locks/option.go): the option record, the `With*`
 * setters, and the defaulting that fills in what the caller left unset.
 */
module Options {
  import opened Wrappers
  import opened Durations

  /** Lease used when the caller sets none: 10 s (the comment beside it says 3 s; the code says 10 s). */
  const DefaultExpire: Duration := 10 * Second
  /** Blocking-mode waiting time used when the caller sets none. */
  const DefaultBlockingTime: Duration := 3 * Second
  /** Blocking-mode retry count used when the caller sets none. */
  const DefaultRetry: Int64 := 5

  /** The watchdog's `status`: `stop` (0) or `running` (1). */
  datatype WatchDogStatus = Stop | Running

  /** The watchdog's `context.CancelFunc`; the field holding it is either nil or set. */
  datatype CancelFunc = CancelFunc

  /** The value of a `LockOptions` record, with the embedded `WatchDog` fields flattened in. */
  datatype Settings = Settings(
    expire: Duration,
    enabled: bool,
    status: WatchDogStatus,
    cancelFn: Option<CancelFunc>,
    blocking: bool,
    blockingTime: Duration,
    retry: Int64,
    retryWaitingTime: Duration)

  /** Go's zero value of `LockOptions`, from which `NewRedisDistributedLock` starts. */
  const Zero: Settings := Settings(0, false, Stop, None, false, 0, 0, 0)

  /** The option closures, one constructor per `With*` function. */
  datatype LockOption =
    | WithBlocking
    | WithBlockingWaitTime(blockingTime: Duration)
    | WithExpire(expire: Duration)
    | WithRetry(retry: Int64)
    | WithRetryWaitingTime(waitingTime: Duration)
    | WithWatchDog

  /** The fields a setter can write. */
  datatype Field = ExpireField | EnabledField | BlockingField | BlockingTimeField | RetryField | RetryWaitingTimeField

  datatype FieldValue = Flag(flag: bool) | Amount(amount: Int64)

  function Read(s: Settings, f: Field): FieldValue
  {
    match f
    case ExpireField => Amount(s.expire)
    case EnabledField => Flag(s.enabled)
    case BlockingField => Flag(s.blocking)
    case BlockingTimeField => Amount(s.blockingTime)
    case RetryField => Amount(s.retry)
    case RetryWaitingTimeField => Amount(s.retryWaitingTime)
  }

  /** The field a setter writes. */
  function FieldOf(opt: LockOption): Field
  {
    match opt
    case WithBlocking => BlockingField
    case WithBlockingWaitTime(_) => BlockingTimeField
    case WithExpire(_) => ExpireField
    case WithRetry(_) => RetryField
    case WithRetryWaitingTime(_) => RetryWaitingTimeField
    case WithWatchDog => EnabledField
  }

  /** The value a setter writes. */
  function Written(opt: LockOption): FieldValue
  {
    match opt
    case WithBlocking => Flag(true)
    case WithBlockingWaitTime(d) => Amount(d)
    case WithExpire(d) => Amount(d)
    case WithRetry(n) => Amount(n)
    case WithRetryWaitingTime(d) => Amount(d)
    case WithWatchDog => Flag(true)
  }

  /** Running one option closure on a record: exactly its own field changes. */
  function Applied(s: Settings, opt: LockOption): (r: Settings)
    ensures Read(r, FieldOf(opt)) == Written(opt)
    ensures forall f :: f != FieldOf(opt) ==> Read(r, f) == Read(s, f)
    ensures r.status == s.status && r.cancelFn == s.cancelFn
  {
    match opt
    case WithBlocking => s.(blocking := true)
    case WithBlockingWaitTime(d) => s.(blockingTime := d)
    case WithExpire(d) => s.(expire := d)
    case WithRetry(n) => s.(retry := n)
    case WithRetryWaitingTime(d) => s.(retryWaitingTime := d)
    case WithWatchDog => s.(enabled := true)
  }

  /** The options run in argument order (locks/redis.go:43-45). */
  function ApplyAll(s: Settings, opts: seq<LockOption>): (r: Settings)
    ensures r.status == s.status && r.cancelFn == s.cancelFn
    decreases |opts|
  {
    if opts == [] then s else Applied(ApplyAll(s, opts[..|opts| - 1]), opts[|opts| - 1])
  }

  /** Euclidean division of naturals, which is also Go's truncating division on them. */
  lemma QuotientBounds(ms: nat, n: nat)
    requires n > 0
    ensures 0 <= ms / n <= ms && (ms / n) * n <= ms
    ensures ms / n == 0 <==> ms < n
  {
    var q, r := ms / n, ms % n;
    assert ms == q * n + r && 0 <= r < n;
    if q > 0 {
      MulAtLeast(q, n);
      MulAtLeast(n, q);
    }
  }

  lemma MulAtLeast(a: nat, b: nat)
    requires a >= 1
    ensures a * b >= b
  {
    assert a * b == (a - 1) * b + b;
  }

  /** Facts about `blockingTime.Milliseconds() / int64(retry)` for a positive time and count. */
  lemma SleepBounds(blockingTime: Duration, retry: Int64)
    requires blockingTime > 0 && retry > 0
    ensures var ms := Milliseconds(blockingTime) as int;
            var sleep := ms / retry as int;
            0 <= sleep <= ms && sleep * retry as int <= ms
            && sleep * 1_000_000 <= blockingTime as int
            && (sleep == 0 <==> ms < retry as int)
  {
    QuotientBounds(Milliseconds(blockingTime) as int, retry as int);
  }

  /**
   * The default retry interval: `blockingTime` in whole ms divided by `retry` (both positive, so
   * Go's truncating division agrees with Dafny's), as a duration of that many milliseconds.
   */
  function DefaultRetryWaitingTime(blockingTime: Duration, retry: Int64): (d: Duration)
    requires blockingTime > 0 && retry > 0
    ensures 0 <= d <= blockingTime && d as int % 1_000_000 == 0
    ensures d as int * retry as int <= blockingTime as int
    ensures d == 0 <==> Milliseconds(blockingTime) < retry
  {
    SleepBounds(blockingTime, retry);
    var sleep := Milliseconds(blockingTime) / retry;
    assert (sleep as int * 1_000_000) * retry as int <= blockingTime as int by {
      var s, n := sleep as int, retry as int;
      assert s * n <= Milliseconds(blockingTime) as int;
      assert s * 1_000_000 * n == (s * n) * 1_000_000;
    }
    Millisecond * sleep
  }

  /** A record as `optionWithDefault` leaves it. */
  predicate Resolved(s: Settings)
  {
    s.expire > 0 && (s.blocking ==> s.blockingTime > 0 && s.retryWaitingTime >= 0)
  }

  /** optionWithDefault (locks/option.go:106-127): fill in what the caller left non-positive. */
  function WithDefault(s: Settings): (r: Settings)
    ensures Resolved(r) && (r.blocking ==> r.retry > 0)
    ensures r.blocking == s.blocking && r.status == s.status && r.cancelFn == s.cancelFn
  {
    var s1 := if s.expire <= 0 then s.(expire := DefaultExpire, enabled := true) else s;
    var s2 := if s1.blocking && s1.blockingTime <= 0 then s1.(blockingTime := DefaultBlockingTime) else s1;
    var s3 := if s2.blocking && s2.retry <= 0 then s2.(retry := DefaultRetry) else s2;
    if s3.blocking && s3.retryWaitingTime <= 0
    then s3.(retryWaitingTime := DefaultRetryWaitingTime(s3.blockingTime, s3.retry))
    else s3
  }

  /** The configuration `NewRedisDistributedLock` ends with: the options in order, then the defaults. */
  function Resolve(opts: seq<LockOption>): Settings
  {
    WithDefault(ApplyAll(Zero, opts))
  }

  /** Of several setters for one field, the last one in argument order decides its value. */
  lemma {:induction false} LastSetterWins(s: Settings, opts: seq<LockOption>, i: nat)
    requires i < |opts|
    requires forall j :: i < j < |opts| ==> FieldOf(opts[j]) != FieldOf(opts[i])
    ensures Read(ApplyAll(s, opts), FieldOf(opts[i])) == Written(opts[i])
    decreases |opts|
  {
    var prefix := opts[..|opts| - 1];
    if i < |opts| - 1 {
      assert forall j :: i < j < |prefix| ==> prefix[j] == opts[j];
      LastSetterWins(s, prefix, i);
    }
  }

  /** A field no option names keeps the value it had before the options ran. */
  lemma {:induction false} UnsetFieldKeepsValue(s: Settings, opts: seq<LockOption>, f: Field)
    requires forall j :: 0 <= j < |opts| ==> FieldOf(opts[j]) != f
    ensures Read(ApplyAll(s, opts), f) == Read(s, f)
    decreases |opts|
  {
    if opts != [] {
      var prefix := opts[..|opts| - 1];
      assert forall j :: 0 <= j < |prefix| ==> prefix[j] == opts[j];
      UnsetFieldKeepsValue(s, prefix, f);
    }
  }

  /** An unset or non-positive lease becomes 10 s and switches the watchdog on. */
  lemma DefaultLeaseEnablesWatchDog(s: Settings)
    requires s.expire <= 0
    ensures WithDefault(s).expire == DefaultExpire && WithDefault(s).enabled
  {
  }

  /** A positive lease is kept, and so is the watchdog flag: only `WithWatchDog` turns it on then. */
  lemma ExplicitLeaseKeepsWatchDogFlag(s: Settings)
    requires s.expire > 0
    ensures WithDefault(s).expire == s.expire && WithDefault(s).enabled == s.enabled
  {
  }

  /** In blocking mode a non-positive waiting time becomes 3 s and a non-positive retry count 5. */
  lemma BlockingDefaults(s: Settings)
    requires s.blocking
    ensures WithDefault(s).blockingTime == (if s.blockingTime <= 0 then DefaultBlockingTime else s.blockingTime)
    ensures WithDefault(s).retry == (if s.retry <= 0 then DefaultRetry else s.retry)
  {
  }

  /**
   * In blocking mode a non-positive retry interval becomes the defaulted waiting time in whole
   * ms divided by the defaulted retry count; it is zero exactly when that time in ms is below
   * the count.
   */
  lemma DefaultRetryInterval(s: Settings)
    requires s.blocking && s.retryWaitingTime <= 0
    ensures var r := WithDefault(s);
            r.retryWaitingTime as int == Milliseconds(r.blockingTime) as int / r.retry as int * 1_000_000
            && (r.retryWaitingTime == 0 <==> Milliseconds(r.blockingTime) < r.retry)
  {
  }

  /** A positive retry interval set by the caller survives defaulting. */
  lemma ExplicitRetryIntervalKept(s: Settings)
    requires s.retryWaitingTime > 0
    ensures WithDefault(s).retryWaitingTime == s.retryWaitingTime
  {
  }

  /** Outside blocking mode the waiting time, retry count and retry interval stay as set. */
  lemma NonBlockingKeepsRetrySettings(s: Settings)
    requires !s.blocking
    ensures var r := WithDefault(s);
            r.blockingTime == s.blockingTime && r.retry == s.retry && r.retryWaitingTime == s.retryWaitingTime
  {
  }

  /** Defaulting twice gives the record defaulting once gives. */
  lemma WithDefaultIdempotent(s: Settings)
    ensures WithDefault(WithDefault(s)) == WithDefault(s)
  {
  }

  /**
   * The defaulted retry interval can be zero, which `time.NewTicker` rejects: blocking mode
   * with a 4 ms waiting time and the default 5 retries gives 4 / 5 = 0 ms.
   */
  lemma ZeroRetryIntervalReachable()
    ensures Resolve([WithBlocking, WithBlockingWaitTime(4 * Millisecond)]).blocking
    ensures Resolve([WithBlocking, WithBlockingWaitTime(4 * Millisecond)]).retryWaitingTime == 0
  {
    var opts := [WithBlocking, WithBlockingWaitTime(4 * Millisecond)];
    assert opts[..1] == [WithBlocking] && [WithBlocking][..0] == [];
    assert ApplyAll(Zero, [WithBlocking]) == Zero.(blocking := true);
    assert ApplyAll(Zero, opts) == Zero.(blocking := true, blockingTime := 4 * Millisecond);
    assert Milliseconds(4 * Millisecond) == 4;
  }

  /** LockOptions: the option record that each closure and `optionWithDefault` update in place. */
  class LockOptions {
    var expire: Duration
    var enabled: bool
    var status: WatchDogStatus
    var cancelFn: Option<CancelFunc>
    var blocking: bool
    var blockingTime: Duration
    var retry: Int64
    var retryWaitingTime: Duration

    function Snapshot(): Settings
      reads this
    {
      Settings(expire, enabled, status, cancelFn, blocking, blockingTime, retry, retryWaitingTime)
    }

    constructor ()
      ensures Snapshot() == Zero
    {
      expire, enabled, status, cancelFn := 0, false, Stop, None;
      blocking, blockingTime, retry, retryWaitingTime := false, 0, 0, 0;
    }

    /** `opt(options)`: the closure writes its field. */
    method Apply(opt: LockOption)
      modifies this
      ensures Snapshot() == Applied(old(Snapshot()), opt)
    {
      match opt
      case WithBlocking => blocking := true;
      case WithBlockingWaitTime(d) => blockingTime := d;
      case WithExpire(d) => expire := d;
      case WithRetry(n) => retry := n;
      case WithRetryWaitingTime(d) => retryWaitingTime := d;
      case WithWatchDog => enabled := true;
    }

    /** `optionWithDefault(options)`: the four conditional assignments, in order. */
    method OptionWithDefault()
      modifies this
      ensures Snapshot() == WithDefault(old(Snapshot()))
    {
      if expire <= 0 {
        expire := DefaultExpire;
        enabled := true;
      }
      if blocking && blockingTime <= 0 {
        blockingTime := DefaultBlockingTime;
      }
      if blocking && retry <= 0 {
        retry := DefaultRetry;
      }
      if blocking && retryWaitingTime <= 0 {
        SleepBounds(blockingTime, retry);
        var sleep := Milliseconds(blockingTime) / retry;
        retryWaitingTime := Millisecond * sleep;
      }
    }
  }
}
