/**
 * The four commands of the external key-value store that the binding
 * repository issues (SET key value EX ttl, GET, DEL, EXPIRE key ttl), over an
 * in-memory map from key to value and absolute expiry time. Time is a
 * parameter `now` in seconds; an entry is alive while now < its expiry.
 * An expired entry may stay in the map but is invisible, as with the
 * store's lazy expiry.
 */
module KeyValue {
  import opened Wrappers

  datatype Entry = Entry(value: string, expiresAt: int)

  type Store = map<string, Entry>

  /** The key holds a value that has not yet expired. */
  predicate Alive(db: Store, key: string, now: int) {
    key in db && now < db[key].expiresAt
  }

  /** GET key: the value while the key is alive, nothing otherwise. */
  function Get(db: Store, key: string, now: int): (r: Option<string>)
    ensures r.Some? <==> Alive(db, key, now)
    ensures r.Some? ==> r.value == db[key].value
  {
    if Alive(db, key, now) then Some(db[key].value) else None
  }

  /**
   * SET key value EX ttl: store the value with a fresh expiry, replacing any
   * earlier value. A non-positive ttl is refused by the store and changes nothing.
   */
  function SetEx(db: Store, key: string, value: string, ttl: int, now: int): (r: Store)
    ensures ttl > 0 ==> key in r && r[key] == Entry(value, now + ttl)
    ensures ttl <= 0 ==> r == db
    ensures r - {key} == db - {key}
  {
    if ttl > 0 then db[key := Entry(value, now + ttl)] else db
  }

  /** DEL key: the key is gone. */
  function Del(db: Store, key: string): (r: Store)
    ensures key !in r
    ensures r - {key} == db - {key}
  {
    db - {key}
  }

  /**
   * EXPIRE key ttl: a live key gets the new expiry and keeps its value; a
   * non-positive ttl deletes it; a missing or expired key is left alone.
   */
  function Expire(db: Store, key: string, ttl: int, now: int): (r: Store)
    ensures !Alive(db, key, now) ==> r == db
    ensures Alive(db, key, now) && ttl > 0 ==> key in r && r[key] == Entry(db[key].value, now + ttl)
    ensures Alive(db, key, now) && ttl <= 0 ==> key !in r
    ensures r - {key} == db - {key}
  {
    if !Alive(db, key, now) then db
    else if ttl > 0 then db[key := db[key].(expiresAt := now + ttl)]
    else db - {key}
  }
}
