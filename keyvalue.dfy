/**
 * The Redis server the lock runs against, reduced to what the lock's commands
 * observe: each key holds a string value and a remaining time to live. The
 * commands below are Redis's own (GET, DEL, PTTL, PEXPIRE, SET ... PX ... NX);
 * `Elapse` is the passage of wall-clock time, which expires keys.
 */
module KeyValue {
  import opened Wrappers

  type PositiveMillis = x: int | x > 0 witness 1

  /** A key either never expires or expires after a positive number of milliseconds. */
  datatype Ttl = Persistent | Expires(ms: PositiveMillis)

  datatype Entry = Entry(value: string, ttl: Ttl)

  type Db = map<string, Entry>

  /** The errors the Redis client hands back to the lock code. */
  datatype StoreError =
    | EmptyKeyOrValue     // "redis set key or value can't be empty", raised before any command is sent
    | Nil                 // SET ... NX refused because the key exists (go-redis's redis.Nil)
    | InvalidExpireTime   // SET with a non-positive PX argument
    | ConnectionError     // the server could not be reached; the command did not take effect

  /** `db` and `db'` hold the same entries under every key except possibly `key`. */
  predicate AgreeExcept(db: Db, db': Db, key: string)
  {
    && (forall k :: k in db && k != key ==> k in db' && db'[k] == db[k])
    && (forall k :: k in db' && k != key ==> k in db)
  }

  /** GET: the value under `key`, or nil. */
  function Get(db: Db, key: string): (r: Option<string>)
    ensures r.Some? <==> key in db
    ensures r.Some? ==> r.value == db[key].value
  {
    if key in db then Some(db[key].value) else None
  }

  /** PTTL: the remaining lifetime in ms, -1 for a key without expiry, -2 for a missing key. */
  function PTtl(db: Db, key: string): (r: int)
    ensures r == -2 <==> key !in db
    ensures r == -1 <==> key in db && db[key].ttl.Persistent?
    ensures r > 0 <==> key in db && db[key].ttl.Expires?
    ensures key in db && db[key].ttl.Expires? ==> r == db[key].ttl.ms
  {
    if key !in db then -2
    else match db[key].ttl
      case Persistent => -1
      case Expires(ms) => ms
  }

  /** DEL of one key: the store without it, and the number of keys removed. */
  function Del(db: Db, key: string): (r: (Db, int))
    ensures key !in r.0 && AgreeExcept(db, r.0, key)
    ensures r.1 == (if key in db then 1 else 0)
  {
    (map k | k in db && k != key :: db[k], if key in db then 1 else 0)
  }

  /**
   * PEXPIRE: 0 for a missing key; otherwise 1, after giving the key a lifetime of `ms`
   * milliseconds, or deleting it when `ms` is not positive.
   */
  function PExpire(db: Db, key: string, ms: int): (r: (Db, int))
    ensures key !in db ==> r == (db, 0)
    ensures key in db && ms > 0 ==> r.1 == 1 && r.0 == db[key := Entry(db[key].value, Expires(ms))]
    ensures key in db && ms <= 0 ==> r.1 == 1 && key !in r.0 && AgreeExcept(db, r.0, key)
  {
    if key !in db then (db, 0)
    else if ms > 0 then (db[key := db[key].(ttl := Expires(ms))], 1)
    else (Del(db, key).0, 1)
  }

  /** SET key value PX ms NX: stores `value` for `ms` milliseconds unless `key` already exists. */
  function SetPxNx(db: Db, key: string, value: string, ms: int): (r: (Db, Option<StoreError>))
    ensures r.1.None? <==> ms > 0 && key !in db
    ensures r.1.None? ==> r.0 == db[key := Entry(value, Expires(ms))]
    ensures r.1.Some? ==> r.0 == db && r.1.value in {InvalidExpireTime, Nil}
    ensures ms > 0 && key in db ==> r.1 == Some(Nil)
    ensures ms <= 0 ==> r == (db, Some(InvalidExpireTime))
  {
    if ms <= 0 then (db, Some(InvalidExpireTime))
    else if key in db then (db, Some(Nil))
    else (db[key := Entry(value, Expires(ms))], None)
  }

  /** One entry after `ms` milliseconds, when it is still alive. */
  function Aged(e: Entry, ms: nat): Entry
    requires e.ttl.Expires? ==> e.ttl.ms > ms
  {
    match e.ttl
    case Persistent => e
    case Expires(left) => e.(ttl := Expires(left - ms))
  }

  /** Whether an entry with this lifetime is still present after `ms` more milliseconds. */
  predicate Outlives(t: Ttl, ms: int)
  {
    t.Persistent? || t.ms > ms
  }

  /**
   * The store after `ms` milliseconds of wall-clock time: keys whose lifetime runs out are gone,
   * the others keep their value and have `ms` less to live.
   */
  function Elapse(db: Db, ms: nat): (r: Db)
    ensures forall k :: k in r <==> k in db && Outlives(db[k].ttl, ms)
    ensures forall k :: k in r ==> r[k].value == db[k].value
    ensures forall k :: k in r && db[k].ttl.Persistent? ==> r[k].ttl.Persistent?
    ensures forall k :: k in r && db[k].ttl.Expires? ==> r[k].ttl.Expires? && r[k].ttl.ms == db[k].ttl.ms - ms
  {
    map k | k in db && Outlives(db[k].ttl, ms) :: Aged(db[k], ms)
  }
}
