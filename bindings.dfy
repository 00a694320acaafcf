/**
 * The session binding repository (lib/binding-repository.js): session id ->
 * backend host, kept in the key-value store under `keyPrefix + sid` with a
 * time-to-live of `keyExpiry` seconds that every successful lookup renews.
 *
 * Whether the store reports an error for a command is a parameter of the
 * operation; a command that fails is taken to have had no effect. Errors of
 * SET, DEL and EXPIRE are swallowed; an error of GET reaches the caller.
 */
module Bindings {
  import opened Wrappers
  import opened KeyValue

  /** Why a lookup gave no host. */
  datatype LookupError = StoreError(message: string) | UnknownBinding

  /** The store key of a session: the prefix followed by the session id. */
  function Key(prefix: string, sid: string): (k: string)
    ensures |k| == |prefix| + |sid| && prefix <= k && k[|prefix|..] == sid
  {
    prefix + sid
  }

  /** Under one prefix, distinct session ids have distinct keys. */
  lemma KeyInjective(prefix: string, a: string, b: string)
    requires Key(prefix, a) == Key(prefix, b)
    ensures a == b
  {
  }

  /**
   * findBinding's answer for `key`, given the store's read error if it
   * reported one: the read error unchanged, "unknown binding" for a missing,
   * expired or empty (falsy) value, else the stored host.
   */
  function Lookup(db: Store, key: string, now: int, readError: Option<string>): (r: Result<string, LookupError>)
    ensures readError.Some? ==> r == Err(StoreError(readError.value))
    ensures readError.None? ==> (r.Ok? <==> Alive(db, key, now) && db[key].value != "")
    ensures readError.None? && r.Err? ==> r.error == UnknownBinding
    ensures r.Ok? ==> Alive(db, key, now) && r.value == db[key].value
  {
    match readError
    case Some(e) => Err(StoreError(e))
    case None =>
      match Get(db, key, now)
      case None => Err(UnknownBinding)
      case Some(host) => if host == "" then Err(UnknownBinding) else Ok(host)
  }

  /** The store after findBinding: only a successful lookup renews the key's expiry. */
  function AfterLookup(db: Store, key: string, ttl: int, now: int, readError: Option<string>, expireFailed: bool): (r: Store)
    ensures r - {key} == db - {key}
    ensures Lookup(db, key, now, readError).Err? || expireFailed ==> r == db
    ensures Lookup(db, key, now, readError).Ok? && !expireFailed && ttl > 0 ==>
              key in r && r[key] == Entry(db[key].value, now + ttl)
    ensures Lookup(db, key, now, readError).Ok? && !expireFailed && ttl <= 0 ==> key !in r
  {
    if Lookup(db, key, now, readError).Ok? && !expireFailed then Expire(db, key, ttl, now) else db
  }

  // ---------------------------------------------------------------------------
  // Properties of the repository's store operations
  // ---------------------------------------------------------------------------

  /**
   * A binding written with a positive expiry is found, with the written host,
   * by any lookup before it expires, whatever the key held before
   * (the last writer wins).
   */
  lemma CreateThenFind(db: Store, key: string, host: string, ttl: int, t0: int, t: int)
    requires ttl > 0 && host != ""
    requires t0 <= t < t0 + ttl
    ensures Lookup(SetEx(db, key, host, ttl, t0), key, t, None) == Ok(host)
  {
  }

  /** After a delete, a lookup that reaches the store finds no binding. */
  lemma DeleteThenFind(db: Store, key: string, now: int)
    ensures Lookup(Del(db, key), key, now, None) == Err(UnknownBinding)
  {
  }

  /** An absent, expired or empty value is "unknown binding" and its expiry is not renewed. */
  lemma UnknownIsNotRenewed(db: Store, key: string, ttl: int, now: int, expireFailed: bool)
    requires !Alive(db, key, now) || db[key].value == ""
    ensures Lookup(db, key, now, None) == Err(UnknownBinding)
    ensures AfterLookup(db, key, ttl, now, None, expireFailed) == db
  {
  }

  /** A read error reaches the caller unchanged and renews nothing. */
  lemma ReadErrorIsReported(db: Store, key: string, ttl: int, now: int, e: string, expireFailed: bool)
    ensures Lookup(db, key, now, Some(e)) == Err(StoreError(e))
    ensures AfterLookup(db, key, ttl, now, Some(e), expireFailed) == db
  {
  }

  /** The answers of successive lookups of one key at the given times, each renewing on success. */
  function LookupSeries(db: Store, key: string, ttl: int, times: seq<int>): (r: seq<Result<string, LookupError>>)
    ensures |r| == |times|
    ensures |times| > 0 ==> r[0] == Lookup(db, key, times[0], None)
    decreases |times|
  {
    if times == [] then []
    else [Lookup(db, key, times[0], None)] + LookupSeries(AfterLookup(db, key, ttl, times[0], None, false), key, ttl, times[1..])
  }

  /**
   * Sliding expiry: once a lookup finds host h, lookups that follow one
   * another within less than the time-to-live keep finding h, for ever.
   */
  lemma {:induction false} SlidingExpiry(db: Store, key: string, ttl: int, times: seq<int>)
    requires ttl > 0
    requires |times| > 0 && Lookup(db, key, times[0], None).Ok?
    requires forall k :: 0 <= k < |times| - 1 ==> times[k + 1] < times[k] + ttl
    ensures forall k :: 0 <= k < |times| ==> LookupSeries(db, key, ttl, times)[k] == Lookup(db, key, times[0], None)
    decreases |times|
  {
    var h := Lookup(db, key, times[0], None);
    var db' := AfterLookup(db, key, ttl, times[0], None, false);
    if |times| > 1 {
      assert db'[key] == Entry(h.value, times[0] + ttl);
      assert Lookup(db', key, times[1], None) == h;
      SlidingExpiry(db', key, ttl, times[1..]);
      forall k | 0 <= k < |times|
        ensures LookupSeries(db, key, ttl, times)[k] == h
      {
        if k > 0 {
          assert LookupSeries(db, key, ttl, times)[k] == LookupSeries(db', key, ttl, times[1..])[k - 1];
        }
      }
    }
  }

  /** A binding that nobody looks up for a whole time-to-live is gone, after a write or a renewal alike. */
  lemma IdleBindingExpires(db: Store, key: string, host: string, ttl: int, t: int, t': int)
    requires ttl > 0 && t' >= t + ttl
    ensures Lookup(SetEx(db, key, host, ttl, t), key, t', None) == Err(UnknownBinding)
    ensures Lookup(db, key, t, None).Ok? ==>
              Lookup(AfterLookup(db, key, ttl, t, None, false), key, t', None) == Err(UnknownBinding)
  {
  }

  /** Writing, deleting or looking up one session leaves the answer for every other session unchanged. */
  lemma {:induction false} OtherSessionsUnaffected(db: Store, prefix: string, sid: string, other: string,
                                                   host: string, ttl: int, now: int, t: int,
                                                   readError: Option<string>, expireFailed: bool)
    requires sid != other
    ensures var k, k' := Key(prefix, sid), Key(prefix, other);
            && Lookup(SetEx(db, k, host, ttl, now), k', t, None) == Lookup(db, k', t, None)
            && Lookup(Del(db, k), k', t, None) == Lookup(db, k', t, None)
            && Lookup(AfterLookup(db, k, ttl, now, readError, expireFailed), k', t, None) == Lookup(db, k', t, None)
  {
    var k, k' := Key(prefix, sid), Key(prefix, other);
    assert k != k' by {
      if k == k' {
        KeyInjective(prefix, sid, other);
      }
    }
    SameElsewhere(db, SetEx(db, k, host, ttl, now), k, k');
    SameElsewhere(db, Del(db, k), k, k');
    SameElsewhere(db, AfterLookup(db, k, ttl, now, readError, expireFailed), k, k');
  }

  /** Two stores that agree off `key` agree on every other key. */
  lemma SameElsewhere(db: Store, db': Store, key: string, k': string)
    requires db' - {key} == db - {key} && k' != key
    ensures (k' in db' <==> k' in db) && (k' in db ==> db'[k'] == db[k'])
  {
    assert k' in db' <==> k' in db' - {key};
    assert k' in db <==> k' in db - {key};
    if k' in db {
      assert db'[k'] == (db' - {key})[k'];
      assert db[k'] == (db - {key})[k'];
    }
  }

  // ---------------------------------------------------------------------------
  // The repository
  // ---------------------------------------------------------------------------

  /** The repository: its key prefix and expiry, and the store it writes to. */
  class BindingRepository {
    const keyPrefix: string
    const keyExpiry: int
    var store: Store

    constructor (keyPrefix: string, keyExpiry: int, store: Store)
      ensures this.keyPrefix == keyPrefix && this.keyExpiry == keyExpiry && this.store == store
    {
      this.keyPrefix := keyPrefix;
      this.keyExpiry := keyExpiry;
      this.store := store;
    }

    /** createBinding: SET key host EX keyExpiry; a store error is swallowed. */
    method CreateBinding(sid: string, host: string, now: int, failed: bool)
      modifies this
      ensures store == if failed then old(store) else SetEx(old(store), Key(keyPrefix, sid), host, keyExpiry, now)
    {
      if !failed {
        store := SetEx(store, Key(keyPrefix, sid), host, keyExpiry, now);
      }
    }

    /** findBinding: GET key; on a host, report it and renew the key's expiry. */
    method FindBinding(sid: string, now: int, readError: Option<string>, expireFailed: bool)
      returns (r: Result<string, LookupError>)
      modifies this
      ensures r == Lookup(old(store), Key(keyPrefix, sid), now, readError)
      ensures store == AfterLookup(old(store), Key(keyPrefix, sid), keyExpiry, now, readError, expireFailed)
    {
      if readError.Some? {
        return Err(StoreError(readError.value));
      }
      var host := Get(store, Key(keyPrefix, sid), now);
      if host.None? || host.value == "" {
        return Err(UnknownBinding);
      }
      r := Ok(host.value);
      DelayBindingExpiry(sid, now, expireFailed);
    }

    /** deleteBinding: DEL key; a store error is swallowed. */
    method DeleteBinding(sid: string, failed: bool)
      modifies this
      ensures store == if failed then old(store) else Del(old(store), Key(keyPrefix, sid))
    {
      if !failed {
        store := Del(store, Key(keyPrefix, sid));
      }
    }

    /** delayBindingExpiry: EXPIRE key keyExpiry; a store error is swallowed. */
    method DelayBindingExpiry(sid: string, now: int, failed: bool)
      modifies this
      ensures store == if failed then old(store) else Expire(old(store), Key(keyPrefix, sid), keyExpiry, now)
    {
      if !failed {
        store := Expire(store, Key(keyPrefix, sid), keyExpiry, now);
      }
    }
  }
}
