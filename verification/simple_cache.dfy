/**
 * The TTL cache engine of src/SimpleCache.php. The MySQL table is an abstract
 * sequence of rows in table order; the clock is an integer `now` in seconds;
 * the outcome of each SQL statement is a `Backend` parameter.
 */
module Cache {
  import opened Wrappers

  /** Default cache lifetime in seconds (one hour). */
  const DEFAULT_LIFETIME: int := 3600
  /** A lifetime of zero means "never expires". */
  const IMMORTAL_LIFETIME: int := 0

  const DEFAULT_TABLE: string := "cache"
  const DEFAULT_KEY: string := "key"
  const DEFAULT_CACHE: string := "cache"

  /** The exceptions the engine throws (SimpleCache_Exception and its codes). */
  datatype CacheError =
    | InvalidName(name: string)   // thrown by an identifier setter, without a code
    | DatabaseNotInitialized      // DATABASE_NOT_INITALIZED
    | CacheWrite                  // CACHE_WRITE

  /** The exception code `getCode()` reports. */
  function Code(e: CacheError): int
  {
    match e
    case InvalidName(_) => 0
    case DatabaseNotInitialized => 1
    case CacheWrite => 2
  }

  /**
   * One row of the cache table: the key column, the serialized payload, the
   * nullable `expire` column and the auto-maintained `timestamp` column.
   */
  datatype Row = Row(key: string, payload: string, expire: Option<int>, timestamp: int)

  /** The `$lifetimeInSeconds` argument of setCache: `null`, an integer, or `false`. */
  datatype LifetimeArg = NullArg | IntArg(seconds: int) | FalseArg

  /**
   * What the database does with the statements of one call: whether
   * `CREATE TABLE IF NOT EXISTS` succeeds if it is issued, and whether the
   * data statement of the call succeeds.
   */
  datatype Backend = Backend(createSucceeds: bool, statementSucceeds: bool)

  /** `validateToken`: a token is valid when escaping leaves it unchanged. */
  predicate ValidToken(escape: string -> string, token: string)
  {
    token == escape(token)
  }

  /** PHP's `empty()` on an optional string argument. */
  predicate PhpEmpty(s: Option<string>)
  {
    s.None? || s.value == "" || s.value == "0"
  }

  /** `setLifetime`: `max(0, n)`, so a stored default lifetime is never negative. */
  function ClampLifetime(n: int): (r: int)
    ensures r >= 0 && r >= n
    ensures r == n || r == 0
  {
    if n < 0 then 0 else n
  }

  /**
   * The `expire` value setCache writes. `null` falls back to the default
   * lifetime; only an integer 0 (`=== IMMORTAL_LIFETIME`) gives NULL; `false`
   * is not identical to 0 and counts as 0 seconds in `time() + $lifetime`.
   */
  function Expiry(arg: LifetimeArg, default: int, now: int): (e: Option<int>)
    ensures arg.NullArg? ==> (e.None? <==> default == IMMORTAL_LIFETIME)
    ensures arg.NullArg? && e.Some? ==> e.value == now + default
    ensures arg.IntArg? ==> (e.None? <==> arg.seconds == IMMORTAL_LIFETIME)
    ensures arg.IntArg? && e.Some? ==> e.value == now + arg.seconds
    ensures arg.FalseArg? ==> e == Some(now)
  {
    var lifetime := match arg
      case NullArg => default
      case IntArg(n) => n
      case FalseArg => 0;
    if arg.FalseArg? || lifetime != IMMORTAL_LIFETIME then Some(now + lifetime) else None
  }

  /**
   * The WHERE clause of getCache. With an immortal default lifetime only rows
   * without an expiry qualify; otherwise a row without an expiry is fresh while
   * its timestamp is later than `now - lifetime`, and a row with one while the
   * expiry is later than `now`.
   */
  predicate Fresh(row: Row, lifetime: int, now: int)
  {
    if lifetime == IMMORTAL_LIFETIME then row.expire.None?
    else
      || (row.expire.None? && row.timestamp > now - lifetime)
      || (row.expire.Some? && row.expire.value > now)
  }

  /** The WHERE clause of purgeExpired: `expire < NOW()`, false on NULL. */
  predicate Expired(row: Row, now: int)
  {
    row.expire.Some? && row.expire.value < now
  }

  /** Keys are unique: at most one row per key. */
  ghost predicate UniqueKeys(rows: seq<Row>)
  {
    forall i, j :: 0 <= i < j < |rows| ==> rows[i].key != rows[j].key
  }

  /** `SELECT * WHERE key = ...` followed by one `fetch_assoc`: the first row for the key. */
  function FirstRow(rows: seq<Row>, key: string): (r: Option<Row>)
    ensures r.None? <==> forall i :: 0 <= i < |rows| ==> rows[i].key != key
    ensures r.Some? ==> exists i :: 0 <= i < |rows| && rows[i] == r.value && rows[i].key == key
                                    && forall j :: 0 <= j < i ==> rows[j].key != key
  {
    if |rows| == 0 then None
    else if rows[0].key == key then Some(rows[0])
    else
      var r := FirstRow(rows[1..], key);
      assert forall i :: 1 <= i < |rows| ==> rows[i] == rows[1..][i - 1];
      r
  }

  /**
   * The payload getCache returns: that of the first row for the key that is
   * fresh at `now` under the default lifetime, or nothing (a miss).
   */
  function Lookup(rows: seq<Row>, key: string, lifetime: int, now: int): (r: Option<string>)
    ensures r.None? <==> forall i :: 0 <= i < |rows| ==> !(rows[i].key == key && Fresh(rows[i], lifetime, now))
    ensures r.Some? ==> exists i :: 0 <= i < |rows| && rows[i].key == key && Fresh(rows[i], lifetime, now)
                                    && rows[i].payload == r.value
                                    && forall j :: 0 <= j < i ==> !(rows[j].key == key && Fresh(rows[j], lifetime, now))
  {
    if |rows| == 0 then None
    else if rows[0].key == key && Fresh(rows[0], lifetime, now) then Some(rows[0].payload)
    else
      var r := Lookup(rows[1..], key, lifetime, now);
      assert forall i :: 1 <= i < |rows| ==> rows[i] == rows[1..][i - 1];
      r
  }

  /**
   * The row after `UPDATE ... SET payload, expire`: the `timestamp` column is
   * `ON UPDATE CURRENT_TIMESTAMP`, which MySQL applies only when some other
   * column actually changes.
   */
  function Updated(row: Row, payload: string, expire: Option<int>, now: int): (r: Row)
    ensures r.key == row.key && r.payload == payload && r.expire == expire
    ensures r.timestamp == now || r == row
    ensures row.payload == payload && row.expire == expire ==> r == row
    ensures (row.payload != payload || row.expire != expire) ==> r.timestamp == now
  {
    var changed := row.payload != payload || row.expire != expire;
    Row(row.key, payload, expire, if changed then now else row.timestamp)
  }

  /** The UPDATE of setCache: every row for the key gets the new payload and expiry. */
  function UpdateKey(rows: seq<Row>, key: string, payload: string, expire: Option<int>, now: int): (r: seq<Row>)
    ensures |r| == |rows|
    ensures forall i :: 0 <= i < |rows| && rows[i].key != key ==> r[i] == rows[i]
    ensures forall i :: 0 <= i < |rows| && rows[i].key == key ==> r[i] == Updated(rows[i], payload, expire, now)
  {
    if |rows| == 0 then []
    else
      var head := if rows[0].key == key then Updated(rows[0], payload, expire, now) else rows[0];
      [head] + UpdateKey(rows[1..], key, payload, expire, now)
  }

  /**
   * setCache on the table: UPDATE when a row for the key exists, otherwise
   * INSERT a row (whose timestamp is `now`) at the end of the table.
   */
  function Store(rows: seq<Row>, key: string, payload: string, expire: Option<int>, now: int): (r: seq<Row>)
    ensures FirstRow(rows, key).Some? ==> |r| == |rows|
    ensures FirstRow(rows, key).None? ==> r == rows + [Row(key, payload, expire, now)]
    ensures forall i :: 0 <= i < |rows| ==> r[i].key == rows[i].key
    ensures forall i :: 0 <= i < |rows| && rows[i].key != key ==> r[i] == rows[i]
    ensures forall i :: 0 <= i < |r| && r[i].key == key ==> r[i].payload == payload && r[i].expire == expire
    ensures forall i :: 0 <= i < |r| && r[i].key == key ==> r[i].timestamp == now || (i < |rows| && r[i] == rows[i])
    ensures FirstRow(r, key).Some?
  {
    if FirstRow(rows, key).Some? then UpdateKey(rows, key, payload, expire, now)
    else
      var r := rows + [Row(key, payload, expire, now)];
      assert r[|rows|].key == key;
      r
  }

  /** purgeExpired on the table: `DELETE WHERE expire < NOW()`. */
  function Purge(rows: seq<Row>, now: int): (r: seq<Row>)
    ensures forall row :: row in r <==> row in rows && !Expired(row, now)
  {
    if |rows| == 0 then []
    else
      var rest := Purge(rows[1..], now);
      assert rows == [rows[0]] + rows[1..];
      if Expired(rows[0], now) then rest else [rows[0]] + rest
  }

  /**
   * The purge deletes every copy of an expired row and keeps every copy of any
   * other row. (Stated apart from `Purge` so that proofs about its order need
   * not carry the multiset reasoning.)
   */
  lemma {:induction false} PurgeMultiplicities(rows: seq<Row>, now: int)
    ensures forall row :: multiset(Purge(rows, now))[row] == if Expired(row, now) then 0 else multiset(rows)[row]
  {
    if |rows| > 0 {
      PurgeMultiplicities(rows[1..], now);
      assert rows == [rows[0]] + rows[1..];
    }
  }

  /** resetCache on the table: `DELETE WHERE key = ...`. */
  function Remove(rows: seq<Row>, key: string): (r: seq<Row>)
    ensures forall row :: row in r <==> row in rows && row.key != key
    ensures forall row :: multiset(r)[row] == if row.key == key then 0 else multiset(rows)[row]
  {
    if |rows| == 0 then []
    else
      var rest := Remove(rows[1..], key);
      assert rows == [rows[0]] + rows[1..];
      if rows[0].key == key then rest else [rows[0]] + rest
  }


  /** The constructor calls a setter only for a name PHP does not consider `empty()`. */
  function Configured(connected: bool, name: Option<string>, default: string): string
  {
    if connected && !PhpEmpty(name) then name.value else default
  }

  /** A name the constructor passes to a setter that then throws. */
  predicate Refused(connected: bool, escape: string -> string, name: Option<string>)
  {
    connected && !PhpEmpty(name) && !ValidToken(escape, name.value)
  }

  /** No name given to the constructor makes its setter throw. */
  predicate NamesAccepted(connected: bool, escape: string -> string,
                          table: Option<string>, key: Option<string>, cache: Option<string>)
  {
    !Refused(connected, escape, table) && !Refused(connected, escape, key) && !Refused(connected, escape, cache)
  }

  /** The engine: its configuration, its initialisation flag and the table it targets. */
  class SimpleCache {
    /** Whether a mysqli handle was supplied. */
    const connected: bool
    /** `real_escape_string` of that handle, a foreign call left uninterpreted. */
    const escape: string -> string

    var initialized: bool
    var tableName: string
    var keyName: string
    var cacheName: string
    /** Default lifetime in seconds. */
    var lifetime: int
    /** The rows of the cache table, in table order. */
    var rows: seq<Row>

    ghost predicate Valid()
      reads this
    {
      lifetime >= 0 && (initialized ==> connected)
    }

    /** The property defaults; `existing` is what the table holds already (empty if it does not exist). */
    constructor (connected: bool, escape: string -> string, existing: seq<Row>)
      ensures Valid()
      ensures this.connected == connected && this.escape == escape && rows == existing
      ensures !initialized && lifetime == DEFAULT_LIFETIME
      ensures tableName == DEFAULT_TABLE && keyName == DEFAULT_KEY && cacheName == DEFAULT_CACHE
    {
      this.connected := connected;
      this.escape := escape;
      initialized := false;
      tableName, keyName, cacheName := DEFAULT_TABLE, DEFAULT_KEY, DEFAULT_CACHE;
      lifetime := DEFAULT_LIFETIME;
      rows := existing;
    }

    /**
     * `new SimpleCache($sql, $table, $key, $cache, $purge)`: sets each name that
     * is not `empty()`, then purges when asked to. A throw aborts construction.
     */
    static method Create(connected: bool, escape: string -> string, existing: seq<Row>,
                         table: Option<string>, key: Option<string>, cache: Option<string>,
                         purge: bool, now: int, db: Backend)
      returns (r: Result<SimpleCache, CacheError>)
      ensures Refused(connected, escape, table) ==> r == Err(InvalidName(table.value))
      ensures !Refused(connected, escape, table) && Refused(connected, escape, key)
              ==> r == Err(InvalidName(key.value))
      ensures (!Refused(connected, escape, table) && !Refused(connected, escape, key)
               && Refused(connected, escape, cache))
              ==> r == Err(InvalidName(cache.value))
      ensures NamesAccepted(connected, escape, table, key, cache)
              ==> (r.Ok? <==> !purge || (connected && db.createSucceeds))
      ensures r.Err? && NamesAccepted(connected, escape, table, key, cache) ==> r == Err(DatabaseNotInitialized)
      ensures r.Ok? ==> fresh(r.value) && r.value.Valid()
      ensures r.Ok? ==> r.value.connected == connected && r.value.escape == escape
      ensures r.Ok? ==> r.value.lifetime == DEFAULT_LIFETIME && r.value.initialized == purge
      ensures r.Ok? ==> r.value.tableName == Configured(connected, table, DEFAULT_TABLE)
                        && r.value.keyName == Configured(connected, key, DEFAULT_KEY)
                        && r.value.cacheName == Configured(connected, cache, DEFAULT_CACHE)
      ensures r.Ok? ==> r.value.rows == if purge && db.statementSucceeds then Purge(existing, now) else existing
    {
      var c := new SimpleCache(connected, escape, existing);
      var named := c.ConfigureNames(table, key, cache);
      if named.Err? {
        return Err(named.error);
      }
      if purge {
        var purged := c.PurgeExpired(now, db);
        if purged.Err? {
          return Err(purged.error);
        }
      }
      return Ok(c);
    }

    /** The constructor's calls of the three setters, each skipped for an `empty()` name. */
    method ConfigureNames(table: Option<string>, key: Option<string>, cache: Option<string>)
      returns (r: Result<bool, CacheError>)
      requires Valid()
      modifies this`tableName, this`keyName, this`cacheName
      ensures Valid()
      ensures Refused(connected, escape, table) ==> r == Err(InvalidName(table.value))
      ensures !Refused(connected, escape, table) && Refused(connected, escape, key)
              ==> r == Err(InvalidName(key.value))
      ensures (!Refused(connected, escape, table) && !Refused(connected, escape, key)
               && Refused(connected, escape, cache))
              ==> r == Err(InvalidName(cache.value))
      ensures r.Ok? <==> NamesAccepted(connected, escape, table, key, cache)
      ensures r.Ok? ==> tableName == Configured(connected, table, old(tableName))
                        && keyName == Configured(connected, key, old(keyName))
                        && cacheName == Configured(connected, cache, old(cacheName))
    {
      if !PhpEmpty(table) {
        var named := SetTableName(table.value);
        if named.Err? {
          return Err(named.error);
        }
      }
      if !PhpEmpty(key) {
        var named := SetKeyName(key.value);
        if named.Err? {
          return Err(named.error);
        }
      }
      if !PhpEmpty(cache) {
        var named := SetCacheName(cache.value);
        if named.Err? {
          return Err(named.error);
        }
      }
      return Ok(true);
    }

    /** setTableName: without a connection it refuses; with one it accepts a valid token or throws. */
    method SetTableName(table: string) returns (r: Result<bool, CacheError>)
      requires Valid()
      modifies this`tableName
      ensures Valid()
      ensures !connected ==> r == Ok(false) && tableName == old(tableName)
      ensures connected && ValidToken(escape, table) ==> r == Ok(true) && tableName == table
      ensures connected && !ValidToken(escape, table) ==> r == Err(InvalidName(table)) && tableName == old(tableName)
    {
      if connected {
        if ValidToken(escape, table) {
          tableName := table;
          return Ok(true);
        } else {
          return Err(InvalidName(table));
        }
      }
      return Ok(false);
    }

    /** setKeyName: the same guard for the key column's name. */
    method SetKeyName(key: string) returns (r: Result<bool, CacheError>)
      requires Valid()
      modifies this`keyName
      ensures Valid()
      ensures !connected ==> r == Ok(false) && keyName == old(keyName)
      ensures connected && ValidToken(escape, key) ==> r == Ok(true) && keyName == key
      ensures connected && !ValidToken(escape, key) ==> r == Err(InvalidName(key)) && keyName == old(keyName)
    {
      if connected {
        if ValidToken(escape, key) {
          keyName := key;
          return Ok(true);
        } else {
          return Err(InvalidName(key));
        }
      }
      return Ok(false);
    }

    /** setCacheName: the same guard for the payload column's name. */
    method SetCacheName(cache: string) returns (r: Result<bool, CacheError>)
      requires Valid()
      modifies this`cacheName
      ensures Valid()
      ensures !connected ==> r == Ok(false) && cacheName == old(cacheName)
      ensures connected && ValidToken(escape, cache) ==> r == Ok(true) && cacheName == cache
      ensures connected && !ValidToken(escape, cache) ==> r == Err(InvalidName(cache)) && cacheName == old(cacheName)
    {
      if connected {
        if ValidToken(escape, cache) {
          cacheName := cache;
          return Ok(true);
        } else {
          return Err(InvalidName(cache));
        }
      }
      return Ok(false);
    }

    /** setLifetime: negative values are stored as zero (immortal). */
    method SetLifetime(seconds: int := DEFAULT_LIFETIME)
      requires Valid()
      modifies this`lifetime
      ensures Valid()
      ensures lifetime == ClampLifetime(seconds)
    {
      lifetime := if seconds < 0 then 0 else seconds;
    }

    /**
     * The CREATE TABLE IF NOT EXISTS step of buildCache: on a connection whose
     * CREATE succeeds the engine becomes initialised; it is never reset. The
     * two ALTER TABLE upgrades that follow have their results ignored.
     */
    method CreateTable(db: Backend) returns (built: bool)
      requires Valid()
      modifies this`initialized
      ensures Valid()
      ensures initialized == (old(initialized) || (connected && db.createSucceeds))
      ensures built == initialized
    {
      if connected && db.createSucceeds {
        initialized := true;
      }
      return initialized;
    }

    /**
     * buildCache: with a connection, applies each given name through its
     * setter (a throw stops there), then issues the CREATE step; returns the
     * initialisation flag.
     */
    method BuildCache(table: Option<string>, key: Option<string>, cache: Option<string>, db: Backend)
      returns (r: Result<bool, CacheError>)
      requires Valid()
      modifies this`tableName, this`keyName, this`cacheName, this`initialized
      ensures Valid()
      ensures !connected ==> r == Ok(false) && !initialized
      ensures !connected ==> tableName == old(tableName) && keyName == old(keyName) && cacheName == old(cacheName)
      ensures connected && table.Some? && !ValidToken(escape, table.value)
              ==> r == Err(InvalidName(table.value)) && tableName == old(tableName) && keyName == old(keyName)
      ensures connected && (table.None? || ValidToken(escape, table.value))
              && key.Some? && !ValidToken(escape, key.value)
              ==> r == Err(InvalidName(key.value)) && tableName == table.GetOr(old(tableName)) && keyName == old(keyName)
      ensures connected && (table.None? || ValidToken(escape, table.value))
              && (key.None? || ValidToken(escape, key.value))
              && cache.Some? && !ValidToken(escape, cache.value)
              ==> r == Err(InvalidName(cache.value)) && tableName == table.GetOr(old(tableName))
                  && keyName == key.GetOr(old(keyName)) && cacheName == old(cacheName)
      ensures r.Err? ==> initialized == old(initialized) && cacheName == old(cacheName)
      ensures connected && (table.None? || ValidToken(escape, table.value))
              && (key.None? || ValidToken(escape, key.value))
              && (cache.None? || ValidToken(escape, cache.value))
              ==> r.Ok?
      ensures r.Ok? ==> r.value == initialized && initialized == (old(initialized) || (connected && db.createSucceeds))
      ensures r.Ok? && connected
              ==> && tableName == table.GetOr(old(tableName))
                  && keyName == key.GetOr(old(keyName))
                  && cacheName == cache.GetOr(old(cacheName))
    {
      if connected {
        if table.Some? {
          var named := SetTableName(table.value);
          if named.Err? { return Err(named.error); }
        }
        if key.Some? {
          var named := SetKeyName(key.value);
          if named.Err? { return Err(named.error); }
        }
        if cache.Some? {
          var named := SetCacheName(cache.value);
          if named.Err? { return Err(named.error); }
        }
        var built := CreateTable(db);
      }
      return Ok(initialized);
    }

    /**
     * sqlInitialized: an uninitialised engine tries the CREATE step once and
     * throws DATABASE_NOT_INITALIZED if the engine is still not initialised.
     */
    method SqlInitialized(db: Backend) returns (r: Result<bool, CacheError>)
      requires Valid()
      modifies this`initialized
      ensures Valid()
      ensures initialized == (old(initialized) || (connected && db.createSucceeds))
      ensures r == if initialized then Ok(true) else Err(DatabaseNotInitialized)
    {
      if !initialized {
        var built := CreateTable(db);
        if !built {
          return Err(DatabaseNotInitialized);
        }
      }
      return Ok(true);
    }

    /**
     * getCache: the payload of the first fresh row for the key; a miss, or a
     * failed query, returns `false` (here `None`).
     */
    method GetCache(key: string, now: int, db: Backend) returns (r: Result<Option<string>, CacheError>)
      requires Valid()
      modifies this`initialized
      ensures Valid()
      ensures initialized == (old(initialized) || (connected && db.createSucceeds))
      ensures !initialized ==> r == Err(DatabaseNotInitialized)
      ensures initialized ==> r == Ok(if db.statementSucceeds then Lookup(rows, key, lifetime, now) else None)
    {
      var ready := SqlInitialized(db);
      if ready.Err? {
        return Err(ready.error);
      }
      // initialized implies connected, so the `if ($this->sql)` test always passes here
      if !db.statementSucceeds {
        return Ok(None);
      }
      return Ok(Lookup(rows, key, lifetime, now));
    }

    /**
     * purgeExpired: deletes exactly the rows whose explicit expiry has passed;
     * returns whether the DELETE succeeded.
     */
    method PurgeExpired(now: int, db: Backend) returns (r: Result<bool, CacheError>)
      requires Valid()
      modifies this`initialized, this`rows
      ensures Valid()
      ensures initialized == (old(initialized) || (connected && db.createSucceeds))
      ensures !initialized ==> r == Err(DatabaseNotInitialized) && rows == old(rows)
      ensures initialized ==> r == Ok(db.statementSucceeds)
      ensures initialized && db.statementSucceeds ==> rows == Purge(old(rows), now)
      ensures !db.statementSucceeds ==> rows == old(rows)
    {
      var ready := SqlInitialized(db);
      if ready.Err? {
        return Err(ready.error);
      }
      if db.statementSucceeds {
        rows := Purge(rows, now);
        return Ok(true);
      }
      return Ok(false);
    }

    /**
     * setCache: computes the absolute expiry, then UPDATEs the rows for the
     * key if there are any and INSERTs one otherwise; a rejected write throws
     * CACHE_WRITE.
     */
    method SetCache(key: string, payload: string, now: int, db: Backend, arg: LifetimeArg := NullArg)
      returns (r: Result<bool, CacheError>)
      requires Valid()
      modifies this`initialized, this`rows
      ensures Valid()
      ensures initialized == (old(initialized) || (connected && db.createSucceeds))
      ensures !initialized ==> r == Err(DatabaseNotInitialized) && rows == old(rows)
      ensures initialized && db.statementSucceeds
              ==> r == Ok(true) && rows == Store(old(rows), key, payload, Expiry(arg, lifetime, now), now)
      ensures initialized && !db.statementSucceeds ==> r == Err(CacheWrite) && rows == old(rows)
    {
      var ready := SqlInitialized(db);
      if ready.Err? {
        return Err(ready.error);
      }
      var expire := Expiry(arg, lifetime, now);
      if FirstRow(rows, key).Some? {
        if db.statementSucceeds {
          rows := UpdateKey(rows, key, payload, expire, now);
          return Ok(true);
        }
        return Err(CacheWrite);
      } else if db.statementSucceeds {
        rows := rows + [Row(key, payload, expire, now)];
        return Ok(true);
      }
      return Err(CacheWrite);
    }

    /** resetCache: deletes every row for the key; deleting nothing still succeeds. */
    method ResetCache(key: string, db: Backend) returns (r: Result<bool, CacheError>)
      requires Valid()
      modifies this`initialized, this`rows
      ensures Valid()
      ensures initialized == (old(initialized) || (connected && db.createSucceeds))
      ensures !initialized ==> r == Err(DatabaseNotInitialized) && rows == old(rows)
      ensures initialized ==> r == Ok(db.statementSucceeds)
      ensures initialized && db.statementSucceeds ==> rows == Remove(old(rows), key)
      ensures !db.statementSucceeds ==> rows == old(rows)
    {
      var ready := SqlInitialized(db);
      if ready.Err? {
        return Err(ready.error);
      }
      if db.statementSucceeds {
        rows := Remove(rows, key);
        return Ok(true);
      }
      return Ok(false);
    }

    /** getCacheTimestamp: the timestamp of the first row for the key, fresh or not. */
    method GetCacheTimestamp(key: string, db: Backend) returns (r: Result<Option<int>, CacheError>)
      requires Valid()
      modifies this`initialized
      ensures Valid()
      ensures initialized == (old(initialized) || (connected && db.createSucceeds))
      ensures !initialized ==> r == Err(DatabaseNotInitialized)
      ensures initialized && db.statementSucceeds ==>
                r.Ok? && (r.value.None? <==> forall i :: 0 <= i < |rows| ==> rows[i].key != key)
      ensures initialized && db.statementSucceeds && r.Ok? && r.value.Some? ==>
                r.value.value == FirstRow(rows, key).value.timestamp
      ensures initialized && !db.statementSucceeds ==> r == Ok(None)
    {
      var ready := SqlInitialized(db);
      if ready.Err? {
        return Err(ready.error);
      }
      if db.statementSucceeds {
        var row := FirstRow(rows, key);
        if row.Some? {
          return Ok(Some(row.value.timestamp));
        }
      }
      return Ok(None);
    }

    /**
     * getCacheExpiration: the expiry of the first row for the key, fresh or
     * not. `new \DateTime(null)` turns a NULL expiry into the time of the call.
     */
    method GetCacheExpiration(key: string, now: int, db: Backend) returns (r: Result<Option<int>, CacheError>)
      requires Valid()
      modifies this`initialized
      ensures Valid()
      ensures initialized == (old(initialized) || (connected && db.createSucceeds))
      ensures !initialized ==> r == Err(DatabaseNotInitialized)
      ensures initialized && db.statementSucceeds ==>
                r.Ok? && (r.value.None? <==> forall i :: 0 <= i < |rows| ==> rows[i].key != key)
      ensures initialized && db.statementSucceeds && r.Ok? && r.value.Some? ==>
                r.value.value == FirstRow(rows, key).value.expire.GetOr(now)
      ensures initialized && !db.statementSucceeds ==> r == Ok(None)
    {
      var ready := SqlInitialized(db);
      if ready.Err? {
        return Err(ready.error);
      }
      if db.statementSucceeds {
        var row := FirstRow(rows, key);
        if row.Some? {
          return Ok(Some(row.value.expire.GetOr(now)));
        }
      }
      return Ok(None);
    }
  }
}
