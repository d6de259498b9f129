/**
 * The part of the Redis cache template (caches/redis.go) that the lock uses:
 * `SetNEX` and `Eval`, over a shared server state that the methods update in
 * place. `Advance` lets wall-clock time pass on the server.
 */
module Caches {
  import opened Wrappers
  import opened Durations
  import opened KeyValue
  import opened Scripts

  /**
   * What `SetNEX(key, value, expire)` does to the store and returns: the empty-argument
   * guard, then `SET key value PX <expire in whole ms> NX` on a reachable server.
   */
  function SetNEXOutcome(db: Db, connected: bool, key: string, value: string, expire: Duration): (r: (Db, Option<StoreError>))
    ensures key == "" || value == "" ==> r == (db, Some(EmptyKeyOrValue))
    ensures r.1.None? <==> key != "" && value != "" && connected && key !in db && Milliseconds(expire) > 0
    ensures r.1.None? ==> key in r.0 && r.0[key].value == value && r.0[key].ttl.Expires?
                          && r.0[key].ttl.ms == Milliseconds(expire) as int
    ensures AgreeExcept(db, r.0, key)
    ensures r.1.Some? ==> r.0 == db
    ensures key != "" && value != "" && connected && key in db && Milliseconds(expire) > 0 ==> r.1 == Some(Nil)
    ensures key != "" && value != "" && !connected ==> r.1 == Some(ConnectionError)
    ensures key != "" && value != "" && connected && Milliseconds(expire) <= 0 ==> r.1 == Some(InvalidExpireTime)
  {
    if key == "" || value == "" then (db, Some(EmptyKeyOrValue))
    else if !connected then (db, Some(ConnectionError))
    else SetPxNx(db, key, value, Milliseconds(expire) as int)
  }

  /** What `Eval(script, keys, args)` does: the script runs atomically on a reachable server. */
  function EvalOutcome(db: Db, connected: bool, call: ScriptCall): (r: (Db, Result<int, StoreError>))
    ensures !connected ==> r == (db, Failure(ConnectionError))
    ensures connected ==> r.1.Success? && (r.0, r.1.value) == Run(db, call)
  {
    if connected then var (db', v) := Run(db, call); (db', Success(v)) else (db, Failure(ConnectionError))
  }

  /** RedisTemplate: a client of one Redis server, whose state `db` every client shares. */
  class RedisTemplate {
    var db: Db
    /** Whether the server is reachable; when it is not, every command fails with ConnectionError. */
    var connected: bool

    constructor (db: Db)
      ensures this.db == db && connected
    {
      this.db := db;
      connected := true;
    }

    /** SetNEX: set `key` to `value` with a lifetime of `expire`, only if `key` does not exist. */
    method SetNEX(key: string, value: string, expire: Duration) returns (err: Option<StoreError>)
      modifies this`db
      ensures (db, err) == SetNEXOutcome(old(db), connected, key, value, expire)
    {
      if key == "" || value == "" {
        return Some(EmptyKeyOrValue);
      }
      if !connected {
        return Some(ConnectionError);
      }
      var (db', e) := SetPxNx(db, key, value, Milliseconds(expire) as int);
      db := db';
      err := e;
    }

    /** Eval: run one of the lock's scripts and return its integer reply. */
    method Eval(call: ScriptCall) returns (reply: Result<int, StoreError>)
      modifies this`db
      ensures (db, reply) == EvalOutcome(old(db), connected, call)
    {
      if !connected {
        return Failure(ConnectionError);
      }
      var (db', v) := Run(db, call);
      db := db';
      reply := Success(v);
    }

    /** `ms` milliseconds of wall-clock time pass on the server. */
    method Advance(ms: nat)
      modifies this`db
      ensures db == Elapse(old(db), ms)
    {
      db := Elapse(db, ms);
    }
  }

  /** Mutual exclusion at the store: once one token holds a key, SetNEX for any value fails. */
  lemma SetNEXExcludesOthers(db: Db, connected: bool, key: string, t1: string, t2: string, e1: Duration, e2: Duration)
    requires SetNEXOutcome(db, connected, key, t1, e1).1.None?
    ensures var db1 := SetNEXOutcome(db, connected, key, t1, e1).0;
            var r := SetNEXOutcome(db1, connected, key, t2, e2);
            r.1.Some? && r.0 == db1 && Get(r.0, key) == Some(t1)
  {
  }
}
