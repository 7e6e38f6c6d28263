/**
 * Properties of the cache engine that relate several operations: what a read
 * returns after a write, what purge and reset leave alone, and the two
 * lifetime quirks of src/SimpleCache.php.
 */
module CacheProperties {
  import opened Wrappers
  import opened Cache

  /**
   * A stored value is read back while its explicit expiry lies ahead, whatever
   * the table held before and whatever the (non-immortal) default lifetime.
   */
  lemma StoredValueReadBack(rows: seq<Row>, key: string, payload: string, arg: LifetimeArg,
                            lifetime: int, now: int, later: int)
    requires lifetime != IMMORTAL_LIFETIME && now <= later
    requires Expiry(arg, lifetime, now).Some? && Expiry(arg, lifetime, now).value > later
    ensures Lookup(Store(rows, key, payload, Expiry(arg, lifetime, now), now), key, lifetime, later) == Some(payload)
  {
    var r := Store(rows, key, payload, Expiry(arg, lifetime, now), now);
    var i :| 0 <= i < |r| && r[i] == FirstRow(r, key).value && r[i].key == key;
    assert Fresh(r[i], lifetime, later);
  }

  /** setCache(k, v) followed at once by getCache(k) returns v when the default lifetime is not immortal. */
  lemma SetThenGet(rows: seq<Row>, key: string, payload: string, lifetime: int, now: int)
    requires lifetime > 0
    ensures Lookup(Store(rows, key, payload, Expiry(NullArg, lifetime, now), now), key, lifetime, now) == Some(payload)
  {
    StoredValueReadBack(rows, key, payload, NullArg, lifetime, now, now);
  }

  /**
   * An explicit expiry is authoritative: once it has passed the key reads as
   * a miss under any default lifetime, however long.
   */
  lemma ExplicitExpiryIsAuthoritative(rows: seq<Row>, key: string, payload: string, arg: LifetimeArg,
                                      lifetime: int, now: int, later: int)
    requires Expiry(arg, lifetime, now).Some? && later >= Expiry(arg, lifetime, now).value
    ensures Lookup(Store(rows, key, payload, Expiry(arg, lifetime, now), now), key, lifetime, later) == None
  {
    var r := Store(rows, key, payload, Expiry(arg, lifetime, now), now);
    forall i | 0 <= i < |r| && r[i].key == key
      ensures !Fresh(r[i], lifetime, later)
    {
    }
  }

  /**
   * A row written with lifetime 0 (expire NULL) never expires while the default
   * lifetime is immortal.
   */
  lemma ImmortalWriteUnderImmortalDefault(rows: seq<Row>, key: string, payload: string, now: int, later: int)
    ensures Lookup(Store(rows, key, payload, Expiry(IntArg(0), 0, now), now), key, 0, later) == Some(payload)
  {
    var r := Store(rows, key, payload, Expiry(IntArg(0), 0, now), now);
    var i :| 0 <= i < |r| && r[i] == FirstRow(r, key).value && r[i].key == key;
    assert Fresh(r[i], 0, later);
  }

  /**
   * Under a finite default lifetime a row written with lifetime 0 still ages:
   * once the default lifetime has passed since the write it reads as a miss
   * (rows written earlier carry timestamps no later than the write).
   */
  lemma ImmortalWriteAgesUnderFiniteDefault(rows: seq<Row>, key: string, payload: string,
                                            lifetime: int, now: int, later: int)
    requires forall i :: 0 <= i < |rows| ==> rows[i].timestamp <= now
    requires lifetime > 0 && later >= now + lifetime
    ensures Lookup(Store(rows, key, payload, Expiry(IntArg(0), lifetime, now), now), key, lifetime, later) == None
  {
    var r := Store(rows, key, payload, Expiry(IntArg(0), lifetime, now), now);
    forall i | 0 <= i < |r| && r[i].key == key
      ensures !Fresh(r[i], lifetime, later)
    {
      assert r[i].timestamp <= now;
    }
  }

  /**
   * The hierarchical setCache passes `false` as its default lifetime, which
   * stores `expire = now`: such a write is a miss from the moment it is made.
   */
  lemma FalseLifetimeIsStaleAtOnce(rows: seq<Row>, key: string, payload: string,
                                   lifetime: int, now: int, later: int)
    requires now <= later
    ensures Lookup(Store(rows, key, payload, Expiry(FalseArg, lifetime, now), now), key, lifetime, later) == None
  {
    ExplicitExpiryIsAuthoritative(rows, key, payload, FalseArg, lifetime, now, later);
  }

  /**
   * With an immortal default lifetime getCache only sees rows whose expire is
   * NULL, so a write with any explicit expiry is never read back.
   */
  lemma ImmortalDefaultHidesTimedWrites(rows: seq<Row>, key: string, payload: string, arg: LifetimeArg,
                                        now: int, later: int)
    requires Expiry(arg, IMMORTAL_LIFETIME, now).Some?
    ensures Lookup(Store(rows, key, payload, Expiry(arg, IMMORTAL_LIFETIME, now), now), key, IMMORTAL_LIFETIME, later) == None
  {
    var r := Store(rows, key, payload, Expiry(arg, IMMORTAL_LIFETIME, now), now);
    forall i | 0 <= i < |r| && r[i].key == key
      ensures !Fresh(r[i], IMMORTAL_LIFETIME, later)
    {
    }
  }

  /** Starting from at most one row per key, setCache keeps at most one row per key. */
  lemma StoreKeepsKeysUnique(rows: seq<Row>, key: string, payload: string, expire: Option<int>, now: int)
    requires UniqueKeys(rows)
    ensures UniqueKeys(Store(rows, key, payload, expire, now))
  {
    var r := Store(rows, key, payload, expire, now);
    if FirstRow(rows, key).None? {
      forall i, j | 0 <= i < j < |r|
        ensures r[i].key != r[j].key
      {
        if j == |rows| {
          assert rows[i].key != key;
        }
      }
    }
  }

  /** setCache leaves what every other key reads, and its first row, as they were. */
  lemma {:induction false} StoreLeavesOtherKeys(rows: seq<Row>, key: string, payload: string,
                                                expire: Option<int>, now: int,
                                                other: string, lifetime: int, later: int)
    requires other != key
    ensures Lookup(Store(rows, key, payload, expire, now), other, lifetime, later) == Lookup(rows, other, lifetime, later)
    ensures FirstRow(Store(rows, key, payload, expire, now), other) == FirstRow(rows, other)
  {
    if FirstRow(rows, key).Some? {
      UpdateLeavesOtherKeys(rows, key, payload, expire, now, other, lifetime, later);
    } else {
      AppendLeavesOtherKeys(rows, Row(key, payload, expire, now), other, lifetime, later);
    }
  }

  lemma {:induction false} UpdateLeavesOtherKeys(rows: seq<Row>, key: string, payload: string,
                                                 expire: Option<int>, now: int,
                                                 other: string, lifetime: int, later: int)
    requires other != key
    ensures Lookup(UpdateKey(rows, key, payload, expire, now), other, lifetime, later) == Lookup(rows, other, lifetime, later)
    ensures FirstRow(UpdateKey(rows, key, payload, expire, now), other) == FirstRow(rows, other)
  {
    if |rows| > 0 {
      var r := UpdateKey(rows, key, payload, expire, now);
      assert r[1..] == UpdateKey(rows[1..], key, payload, expire, now);
      UpdateLeavesOtherKeys(rows[1..], key, payload, expire, now, other, lifetime, later);
    }
  }

  lemma {:induction false} AppendLeavesOtherKeys(rows: seq<Row>, row: Row, other: string, lifetime: int, later: int)
    requires row.key != other
    ensures Lookup(rows + [row], other, lifetime, later) == Lookup(rows, other, lifetime, later)
    ensures FirstRow(rows + [row], other) == FirstRow(rows, other)
  {
    if |rows| > 0 {
      assert (rows + [row])[1..] == rows[1..] + [row];
      AppendLeavesOtherKeys(rows[1..], row, other, lifetime, later);
    }
  }

  /**
   * purgeExpired never changes what getCache returns at the purge time or
   * later: every row it deletes has an expiry already in the past.
   */
  lemma {:induction false} PurgeKeepsLookups(rows: seq<Row>, now: int, key: string, lifetime: int, later: int)
    requires now <= later
    ensures Lookup(Purge(rows, now), key, lifetime, later) == Lookup(rows, key, lifetime, later)
  {
    if |rows| > 0 {
      PurgeKeepsLookups(rows[1..], now, key, lifetime, later);
      if Expired(rows[0], now) {
        assert Purge(rows, now) == Purge(rows[1..], now);
        assert !Fresh(rows[0], lifetime, later);
      } else {
        var purged := Purge(rows, now);
        assert purged == [rows[0]] + Purge(rows[1..], now);
        assert purged[0] == rows[0] && purged[1..] == Purge(rows[1..], now);
      }
    }
  }

  /**
   * Purging distributes over concatenation, so the surviving rows keep their
   * table order (and with it which row is the first for a key).
   */
  lemma {:induction false} PurgeKeepsOrder(front: seq<Row>, back: seq<Row>, now: int)
    ensures Purge(front + back, now) == Purge(front, now) + Purge(back, now)
  {
    if |front| > 0 {
      var whole := front + back;
      assert whole[0] == front[0] && whole[1..] == front[1..] + back;
      PurgeKeepsOrder(front[1..], back, now);
      var head := if Expired(front[0], now) then [] else [front[0]];
      assert Purge(whole, now) == head + Purge(whole[1..], now);
      assert Purge(front, now) == head + Purge(front[1..], now);
    } else {
      assert front + back == back;
    }
  }

  /** Removing a key distributes over concatenation: the other rows keep their order. */
  lemma {:induction false} RemoveKeepsOrder(front: seq<Row>, back: seq<Row>, key: string)
    ensures Remove(front + back, key) == Remove(front, key) + Remove(back, key)
  {
    if |front| > 0 {
      assert (front + back)[1..] == front[1..] + back;
      RemoveKeepsOrder(front[1..], back, key);
    } else {
      assert front + back == back;
    }
  }

  /** Purging twice at the same time deletes nothing more. */
  lemma {:induction false} PurgeIdempotent(rows: seq<Row>, now: int)
    ensures Purge(Purge(rows, now), now) == Purge(rows, now)
  {
    if |rows| > 0 {
      PurgeIdempotent(rows[1..], now);
    }
  }

  /**
   * After resetCache(k) no row for k is left, so getCache, getCacheTimestamp and
   * getCacheExpiration all miss on k; every other key reads as before.
   */
  lemma {:induction false} ResetRemovesOnlyKey(rows: seq<Row>, key: string, other: string, lifetime: int, now: int)
    ensures FirstRow(Remove(rows, key), key).None?
    ensures Lookup(Remove(rows, key), key, lifetime, now).None?
    ensures other != key ==> FirstRow(Remove(rows, key), other) == FirstRow(rows, other)
    ensures other != key ==> Lookup(Remove(rows, key), other, lifetime, now) == Lookup(rows, other, lifetime, now)
  {
    if |rows| > 0 {
      ResetRemovesOnlyKey(rows[1..], key, other, lifetime, now);
    }
  }

  /** Deleting a key twice leaves the same table as deleting it once. */
  lemma {:induction false} ResetIdempotent(rows: seq<Row>, key: string)
    ensures Remove(Remove(rows, key), key) == Remove(rows, key)
  {
    if |rows| > 0 {
      ResetIdempotent(rows[1..], key);
    }
  }
}
