# battis/simplecache in Dafny

This project models the two classes of `battis/simplecache`.

`SimpleCache` is a MySQL-backed key/value cache with per-entry expiry. The model covers:
- its identifier setters, which accept a name only when `real_escape_string` leaves it unchanged;
- its default lifetime, clamped at zero;
- its lazy initialisation: `CREATE TABLE IF NOT EXISTS` is issued by each data call until one succeeds, and by every explicit `buildCache`; the initialisation flag never goes back to false;
- the row operations behind `getCache`, `setCache`, `purgeExpired`, `resetCache`, `getCacheTimestamp` and `getCacheExpiration`.

`HierarchicalSimpleCache` rewrites every key to `base + delimiter + escaped key`. Escaping is `str_replace` of the delimiter by a placeholder. The base is a stack of layers: `pushKey` appends the delimiter and an escaped layer to it, and `popKey` takes the last layer off through `explode`/`implode`.

Layout:
- `wrappers.dfy`: `Option` (PHP `null`/`false`) and `Result` (an exception or a value).
- `php_strings.dfy` (module `PhpStrings`): `str_replace`, `explode` and `implode`, with their lemmas.
- `simple_cache.dfy` (module `Cache`): the row model, the SQL WHERE clauses and updates as functions, and the class `SimpleCache`.
- `cache_properties.dfy` (module `CacheProperties`): lemmas that relate several engine operations.
- `hierarchical_simple_cache.dfy` (module `Hierarchy`): the class `HierarchicalSimpleCache`.

Modelling choices:
- The SQL WHERE clauses are predicates: `Cache.Fresh` is the freshness test of `getCache` (src/SimpleCache.php:271-301), `Cache.Expired` is `expire < NOW()` of `purgeExpired` (src/SimpleCache.php:331), and `Cache.ValidToken` is `validateToken`, a name that `real_escape_string` leaves unchanged (src/SimpleCache.php:112-114). `PhpStrings.Implode` is PHP's `implode` (src/HierarchicalSimpleCache.php:180). They carry no contract of their own; the rows below that use them state their meaning.
- The MySQL table is a `seq<Row>` in table order. A row is `{key, payload, expire: Option<int>, timestamp}`, and `fetch_assoc` returns the first matching row.
- Time is one integer clock `now`, in seconds. It serves as both PHP's `time()` and MySQL's `NOW()`.
- What the database does with a call's statements is a `Backend` parameter. It says whether the CREATE statement succeeds and whether the call's data statement succeeds.
- `real_escape_string` is an uninterpreted function `escape` fixed when the engine is created.
- The `$lifetimeInSeconds` argument is `NullArg`, `IntArg(n)` or `FalseArg`. This is needed because `false` and `0` behave differently (`false !== 0`).
- The subclass becomes composition. `HierarchicalSimpleCache` holds its engine and forwards the five overridden calls with the rewritten key. The inherited calls it does not override (`setLifetime`, `purgeExpired`, `buildCache`, the name setters) are made on `engine` directly.
- `timestamp` is `ON UPDATE CURRENT_TIMESTAMP`. MySQL refreshes it only when the UPDATE actually changes another column, and `Cache.Updated` keeps that rule.

Behaviour of the code worth knowing, which the model keeps:
- Identifiers are not checked for being non-empty: `validateToken` only compares the token with its escaped form. The constructor skips a name that PHP's `empty()` rejects, and that includes `"0"`.
- `getCacheExpiration` has no distinct "never" value: `new \DateTime(null)` reports a NULL expiry as the time of the call.
- A row written with lifetime 0 is not immortal under a finite default lifetime. It stays fresh only while its timestamp is within that default (`ImmortalWriteAgesUnderFiniteDefault`).
- Under an immortal default lifetime, `getCache` returns only rows whose expiry is NULL (`ImmortalDefaultHidesTimedWrites`).
- The hierarchical `setCache` defaults its lifetime to `false`. The engine treats `false` as neither `null` nor `0`, so such a row gets `expire = now` and is a miss from the start (`FalseLifetimeIsStaleAtOnce`).

## Model

| member | source | states |
|---|---|---|
| `Cache.ClampLifetime` | src/SimpleCache.php:190-193 | the stored default lifetime is `max(0, n)`: never negative, equal to `n` when `n >= 0`, else 0 |
| `Cache.Expiry` | src/SimpleCache.php:361-367 | `null` uses the default lifetime and any integer is used as given; an integer 0 gives a NULL expiry and any other integer gives `now + lifetime`; `false` gives `now` |
| `Cache.FirstRow` | src/SimpleCache.php:451-458 | the first row for the key, and nothing exactly when no row has the key |
| `Cache.Lookup` | src/SimpleCache.php:271-301 | a miss exactly when no row for the key is fresh; otherwise the payload of the first fresh row for the key; fresh (`Cache.Fresh`) means: under default lifetime 0, a NULL expiry; otherwise a NULL expiry with a timestamp newer than `now - lifetime`, or an expiry later than `now` |
| `Cache.Updated` | src/SimpleCache.php:376-384 | the UPDATE sets payload and expire; the timestamp becomes `now` exactly when payload or expiry changes, and an UPDATE writing the same payload and expiry leaves the row, timestamp included, as it was |
| `Cache.UpdateKey` | src/SimpleCache.php:376-384 | rows for the key are updated and all other rows stay as they were, in place |
| `Cache.Store` | src/SimpleCache.php:369-411 | updates in place when a row for the key exists, else appends one row stamped `now`; other keys' rows are unchanged and afterwards a row for the key exists |
| `Cache.Purge` | src/SimpleCache.php:328-332 | keeps exactly the rows that are not explicitly expired (`Cache.Expired`: a non-NULL expiry before `now`) |
| `Cache.PurgeMultiplicities` | src/SimpleCache.php:328-332 | every copy of an expired row is deleted and every copy of any other row is kept |
| `CacheProperties.PurgeKeepsOrder` | src/SimpleCache.php:328-332 | purging distributes over concatenation, so the surviving rows keep their table order |
| `Cache.Remove` | src/SimpleCache.php:428-433 | keeps exactly the rows of other keys, with their multiplicities |
| `CacheProperties.RemoveKeepsOrder` | src/SimpleCache.php:428-433 | removing a key distributes over concatenation, so the other rows keep their table order |
| `Cache.SimpleCache.constructor` | src/SimpleCache.php:18-43 | the property defaults: table `cache`, columns `key`/`cache`, lifetime 3600, not initialised |
| `Cache.SimpleCache.Create` | src/SimpleCache.php:55-73 | construction fails with the first rejected name, or when purging is asked for and the table cannot be created; otherwise it sets the names and purges |
| `Cache.SimpleCache.ConfigureNames` | src/SimpleCache.php:60-68 | each name that is not `empty()` goes through its setter in table, key, cache order; the first throw stops it |
| `Cache.SimpleCache.SetTableName` | src/SimpleCache.php:123-134 | with no connection: false, name unchanged; with a connection: true and set exactly when `ValidToken(escape, t)` (validateToken, lines 112-114: `real_escape_string` leaves `t` unchanged), else throws and leaves the name unchanged |
| `Cache.SimpleCache.SetKeyName` | src/SimpleCache.php:143-154 | the same three outcomes for the key column |
| `Cache.SimpleCache.SetCacheName` | src/SimpleCache.php:163-174 | the same three outcomes for the payload column |
| `Cache.SimpleCache.SetLifetime` | src/SimpleCache.php:190-193 | the default lifetime becomes `ClampLifetime(n)`; the argument defaults to 3600 |
| `Cache.SimpleCache.CreateTable` | src/SimpleCache.php:233-256 | the engine becomes initialised exactly when it is connected and CREATE succeeds, and is never reset |
| `Cache.SimpleCache.BuildCache` | src/SimpleCache.php:227-257 | with a connection, applies the given names (a throw stops it before CREATE); when connected and every given name passes `ValidToken` it succeeds and returns the initialisation flag after one CREATE attempt; without a connection, returns false and changes nothing |
| `Cache.SimpleCache.SqlInitialized` | src/SimpleCache.php:205-216 | an uninitialised engine tries CREATE once; it throws DATABASE_NOT_INITALIZED exactly when it is still uninitialised |
| `Cache.SimpleCache.GetCache` | src/SimpleCache.php:266-306 | after the initialisation step: throws, or returns `Lookup` of the table (a miss if the query fails); the table is unchanged |
| `Cache.SimpleCache.PurgeExpired` | src/SimpleCache.php:323-338 | after the initialisation step: throws, or replaces the table by `Purge(table, now)` and returns whether the DELETE succeeded |
| `Cache.SimpleCache.SetCache` | src/SimpleCache.php:351-415 | after the initialisation step: throws DATABASE_NOT_INITALIZED, throws CACHE_WRITE when the write fails, or sets the table to `Store(table, key, payload, Expiry(arg, lifetime, now), now)` and returns true |
| `Cache.SimpleCache.ResetCache` | src/SimpleCache.php:424-438 | after the initialisation step: throws, or removes every row for the key and returns true even if none existed |
| `Cache.SimpleCache.GetCacheTimestamp` | src/SimpleCache.php:447-463 | false exactly when no row has the key, whatever its freshness; otherwise the first such row's timestamp |
| `Cache.SimpleCache.GetCacheExpiration` | src/SimpleCache.php:472-488 | false exactly when no row has the key; otherwise the first such row's expiry, with NULL reported as `now` |
| `CacheProperties.StoredValueReadBack` | src/SimpleCache.php:283-301 | under a non-immortal default, a stored value is read back at any time before its explicit expiry, whatever the table held |
| `CacheProperties.SetThenGet` | tests/SimpleCacheTest.php:114-133 | `setCache(k, v)` then `getCache(k)` at once returns `v` when the default lifetime is positive |
| `CacheProperties.ExplicitExpiryIsAuthoritative` | tests/SimpleCacheTest.php:168-209 | once an explicit expiry has passed, the key is a miss under any default lifetime |
| `CacheProperties.ImmortalWriteUnderImmortalDefault` | src/SimpleCache.php:271-282 | a write with lifetime 0 is read back at every later time while the default lifetime is 0 |
| `CacheProperties.ImmortalWriteAgesUnderFiniteDefault` | src/SimpleCache.php:284-292 | under a finite default, a write with lifetime 0 is a miss once the default lifetime has passed |
| `CacheProperties.FalseLifetimeIsStaleAtOnce` | src/HierarchicalSimpleCache.php:199-202 | a write with the hierarchical default `false` is a miss from the moment it is made |
| `CacheProperties.ImmortalDefaultHidesTimedWrites` | src/SimpleCache.php:271-282 | under an immortal default lifetime, a write with an explicit expiry is never read back |
| `CacheProperties.StoreKeepsKeysUnique` | src/SimpleCache.php:369-411 | starting from at most one row per key, setCache keeps at most one row per key |
| `CacheProperties.StoreLeavesOtherKeys` | src/SimpleCache.php:376-404 | setCache leaves what every other key reads, and its first row, unchanged |
| `CacheProperties.PurgeKeepsLookups` | src/SimpleCache.php:328-332 | purging never changes what getCache returns at the purge time or later |
| `CacheProperties.PurgeIdempotent` | src/SimpleCache.php:328-332 | a second purge at the same time deletes nothing more |
| `CacheProperties.ResetRemovesOnlyKey` | src/SimpleCache.php:428-433 | after resetCache(k), reads, timestamps and expirations miss on k, and every other key reads as before |
| `CacheProperties.ResetIdempotent` | src/SimpleCache.php:424-436 | deleting a key twice leaves the same table as deleting it once |
| `PhpStrings.ReplaceAll` | src/HierarchicalSimpleCache.php:63-66 | with a one-character search string absent from the replacement, the result has no search character; a string without it is unchanged |
| `PhpStrings.ReplaceSingleCharacter` | src/HierarchicalSimpleCache.php:63-66 | with one-character search and replacement, every occurrence is replaced and every other character kept, position by position |
| `PhpStrings.Explode` | src/HierarchicalSimpleCache.php:175 | at least one part; `Implode` (PHP `implode`: the parts joined with the delimiter between neighbours) of the parts gives the string back; with a one-character delimiter no part contains it |
| `PhpStrings.ImplodeSnoc` | src/HierarchicalSimpleCache.php:179-180 | joining one more part appends the delimiter and that part |
| `PhpStrings.ExplodeAppend` | src/HierarchicalSimpleCache.php:162 | exploding `a + d + b`, with no delimiter in `b`, gives the parts of `a` followed by `b` |
| `PhpStrings.SplitLast` | src/HierarchicalSimpleCache.php:175-181 | a string is its exploded parts without the last, imploded, then the delimiter, then the last part |
| `Hierarchy.PushPopRoundTrip` | src/HierarchicalSimpleCache.php:160-187 | pushing a layer then popping returns the escaped layer and restores the base (one-character delimiter, absent from the placeholder) |
| `Hierarchy.PlaceholderWithDelimiterBreaksRoundTrip` | src/HierarchicalSimpleCache.php:134-141 | the setters admit placeholder `a/` with delimiter `/`; then a pushed `/` pops back as `""`, not as its escaped form |
| `Hierarchy.RootPopsEmptyLayer` | src/HierarchicalSimpleCache.php:172-188 | a base that is only the delimiter explodes into two empty layers, so popping it returns `""` and empties the base; only the next pop returns null |
| `Hierarchy.HierarchicalSimpleCache.constructor` | src/HierarchicalSimpleCache.php:48-53 | setBase runs first, so a missing base is `/`; then the delimiter and placeholder are set only if their guards pass |
| `Hierarchy.HierarchicalSimpleCache.Create` | src/HierarchicalSimpleCache.php:38-53 | fails exactly when the engine's construction throws, and returns that exception (the first refused name, else DATABASE_NOT_INITALIZED); otherwise a valid namespace over a fresh engine whose base, delimiter and placeholder are those the constructor's guards pick, and whose names, lifetime, initialisation flag and rows are those the engine's construction sets |
| `Hierarchy.HierarchicalSimpleCache.GetSingleLayer` | src/HierarchicalSimpleCache.php:63-66 | an escaped layer contains no delimiter (one-character delimiter absent from the placeholder), and a layer without one is unchanged |
| `Hierarchy.HierarchicalSimpleCache.GetHierarchicalKey` | src/HierarchicalSimpleCache.php:75-78 | the key starts with base and delimiter and, read back through explode, lies exactly one layer below the base; it changes no state |
| `Hierarchy.HierarchicalSimpleCache.SetBase` | src/HierarchicalSimpleCache.php:85-88 | a missing base becomes the current delimiter |
| `Hierarchy.HierarchicalSimpleCache.GetBase` | src/HierarchicalSimpleCache.php:95-98 | returns the current base |
| `Hierarchy.HierarchicalSimpleCache.SetDelimiter` | src/HierarchicalSimpleCache.php:107-114 | accepted exactly when non-empty and not the placeholder, else nothing changes; delimiter and placeholder stay distinct and non-empty |
| `Hierarchy.HierarchicalSimpleCache.SetPlaceholder` | src/HierarchicalSimpleCache.php:134-141 | accepted exactly when non-empty and not the delimiter, else nothing changes; the same invariant is kept |
| `Hierarchy.HierarchicalSimpleCache.PushKey` | src/HierarchicalSimpleCache.php:160-164 | base becomes old base, delimiter and escaped layer, and is returned; explode sees exactly one more layer |
| `Hierarchy.HierarchicalSimpleCache.PopKey` | src/HierarchicalSimpleCache.php:172-188 | empty base: null and no change; otherwise returns the last exploded layer and the base shrinks to the rest, or to `''`; with a one-character delimiter that is the text after the last delimiter |
| `Hierarchy.HierarchicalSimpleCache.GetCache` | src/HierarchicalSimpleCache.php:211-214 | the engine's getCache on `GetHierarchicalKey(key)` |
| `Hierarchy.HierarchicalSimpleCache.SetCache` | src/HierarchicalSimpleCache.php:199-202 | the engine's setCache on `GetHierarchicalKey(key)`; the lifetime defaults to `false` |
| `Hierarchy.HierarchicalSimpleCache.ResetCache` | src/HierarchicalSimpleCache.php:223-226 | the engine's resetCache on `GetHierarchicalKey(key)` |
| `Hierarchy.HierarchicalSimpleCache.GetCacheTimestamp` | src/HierarchicalSimpleCache.php:235-238 | the engine's getCacheTimestamp on `GetHierarchicalKey(key)` |
| `Hierarchy.HierarchicalSimpleCache.GetCacheExpiration` | src/HierarchicalSimpleCache.php:247-250 | the engine's getCacheExpiration on `GetHierarchicalKey(key)` |

## Left out

- The mysqli connection is not modelled: `setSql`, `setSqlInfo`, the SQL text, and executing and fetching. Whether a handle exists is fixed when the engine is created. Statement outcomes are the `Backend` parameter.
- Changing a table or column name after initialisation makes later statements target another table or other columns. The model keeps one table of rows. A statement against a missing table or column is covered only by its `Backend` outcome.
- The SELECT inside `setCache` is assumed to succeed. In PHP a failed SELECT leads to a call on `false`, which is a fatal error rather than an exception.
- The two `ALTER TABLE` upgrades in `buildCache` are not modelled. Their results are ignored, and the second one is malformed.
- `real_escape_string` is an uninterpreted function. Which characters it escapes is not modelled.
- `serialize` and `unserialize` are not modelled. A payload is the already-serialized string. A stored `false` is therefore not confused with a miss here, although PHP confuses them.
- Dates are not modelled: `date()`, `time()`, `NOW()` and `\DateTime`. Both clocks are one integer in seconds, so a PHP/MySQL time-zone difference is not modelled. The TIMESTAMP range limits (1970 to 2038) are not modelled either.
- `purgeExpired` ignores its `$useLocalLifetime` parameter, so the model has no such parameter.
- PHP's loose `==` and `!=` are modelled as string equality. `intval` in `setLifetime` is taken as already applied.
- Two `setCache` calls can race between the SELECT and the INSERT. The model has no concurrency, so it does not capture this.
- Keys are compared with exact string equality. MySQL compares the `text` key column under the server's default collation, which is usually case-insensitive and may ignore trailing spaces, so `A` and `a` can name the same row there; collation-dependent matching is not modelled.
- `getCode()` of the exceptions is the constant table `Cache.Code` (0 for a rejected name, 1 for DATABASE_NOT_INITALIZED, 2 for CACHE_WRITE), with no property of its own.
- `getDelimiter` and `getPlaceholder` are plain field reads of `delimiter` and `placeholder`, so they have no members of their own.
