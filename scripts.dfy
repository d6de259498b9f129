/**
 * The two Lua scripts of the lock (locks/script.go). Redis runs each script as
 * one atomic step, so each is a function from the store (and the script's
 * KEYS/ARGV) to the new store and the integer the script returns.
 */
module Scripts {
  import opened Wrappers
  import opened KeyValue

  /**
   * UnlockLuaScript with KEYS[1] = key, ARGV[1] = token: delete the key when it holds the
   * token, reporting DEL's count; otherwise return 0.
   */
  function UnlockLuaScript(db: Db, key: string, token: string): (r: (Db, int))
    ensures r.1 == 1 <==> key in db && db[key].value == token
    ensures r.1 == 1 ==> key !in r.0 && AgreeExcept(db, r.0, key)
    ensures r.1 != 1 ==> r.1 == 0 && r.0 == db
  {
    if Get(db, key) == Some(token) then Del(db, key) else (db, 0)
  }

  /**
   * LockExpireDelayScript with KEYS[1] = key, ARGV = [token, trigger, incr]: 0 unless the key
   * holds the token; 1 when more than `trigger` ms remain; otherwise PEXPIRE key incr.
   */
  function LockExpireDelayScript(db: Db, key: string, token: string, trigger: int, incr: int): (r: (Db, int))
    ensures r.1 == 1 <==> key in db && db[key].value == token
    ensures r.1 != 1 ==> r.1 == 0 && r.0 == db
    ensures Get(db, key) == Some(token) && PTtl(db, key) > trigger ==> r.0 == db
    ensures Get(db, key) == Some(token) && PTtl(db, key) <= trigger && incr > 0 ==>
              r.0 == db[key := Entry(token, Expires(incr))]
    ensures Get(db, key) == Some(token) && PTtl(db, key) <= trigger && incr <= 0 ==>
              key !in r.0 && AgreeExcept(db, r.0, key)
  {
    var value := Get(db, key);
    if value.None? || value.value != token then (db, 0)
    else if PTtl(db, key) > trigger then (db, 1)
    else PExpire(db, key, incr)
  }

  /** A script invocation as `Eval` receives it: the script text with its KEYS and ARGV. */
  datatype ScriptCall =
    | UnlockCall(key: string, token: string)
    | ExpireDelayCall(key: string, token: string, trigger: int, incr: int)

  function Run(db: Db, call: ScriptCall): (Db, int)
  {
    match call
    case UnlockCall(key, token) => UnlockLuaScript(db, key, token)
    case ExpireDelayCall(key, token, trigger, incr) => LockExpireDelayScript(db, key, token, trigger, incr)
  }

  /** Neither script touches a key other than KEYS[1]. */
  lemma ScriptsTouchOnlyTheirKey(db: Db, call: ScriptCall)
    ensures AgreeExcept(db, Run(db, call).0, call.key)
  {
  }

  /** Neither script ever rewrites a stored value: a key keeps its value or disappears. */
  lemma ScriptsNeverRewriteValues(db: Db, call: ScriptCall)
    ensures forall k :: k in Run(db, call).0 ==> k in db && Run(db, call).0[k].value == db[k].value
  {
  }

  /** A renewal with `incr` above the trigger leaves an owned lease with more than `trigger` ms. */
  lemma RenewalLeavesLeaseAboveTrigger(db: Db, key: string, token: string, trigger: int, incr: int)
    requires Get(db, key) == Some(token)
    requires incr > trigger && incr > 0
    ensures var r := LockExpireDelayScript(db, key, token, trigger, incr);
            r.1 == 1 && Get(r.0, key) == Some(token) && PTtl(r.0, key) > trigger
  {
  }

  /** Once the owner's release went through, neither script succeeds for that owner again. */
  lemma ReleaseIsFinal(db: Db, key: string, token: string, trigger: int, incr: int)
    requires UnlockLuaScript(db, key, token).1 == 1
    ensures var db' := UnlockLuaScript(db, key, token).0;
            UnlockLuaScript(db', key, token) == (db', 0)
            && LockExpireDelayScript(db', key, token, trigger, incr) == (db', 0)
  {
  }
}
