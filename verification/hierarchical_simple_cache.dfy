/**
 * The hierarchical key namespace of src/HierarchicalSimpleCache.php. The
 * source extends SimpleCache; here the namespace holds its engine and forwards
 * every cache call with the key rewritten to `base + delimiter + escaped key`.
 */
module Hierarchy {
  import opened Wrappers
  import opened PhpStrings
  import opened Cache

  const DEFAULT_DELIMITER: string := "/"
  const DEFAULT_PLACEHOLDER: string := "_"

  /**
   * Pushing a segment and then popping one gives back the escaped segment and
   * the previous base, provided the delimiter is one character that the
   * placeholder does not contain.
   */
  lemma PushPopRoundTrip(base: string, d: string, p: string, layer: string)
    requires |d| == 1 && d[0] !in p
    ensures var parts := Explode(d, base + d + ReplaceAll(layer, d, p));
            && |parts| > 1
            && parts[|parts| - 1] == ReplaceAll(layer, d, p)
            && Implode(d, parts[..|parts| - 1]) == base
  {
    var single := ReplaceAll(layer, d, p);
    ExplodeAppend(d, base, single);
    var parts := Explode(d, base + d + single);
    assert parts[..|parts| - 1] == Explode(d, base);
  }

  /**
   * The setters accept a placeholder that contains the delimiter, and then the
   * round trip fails: with delimiter "/" and placeholder "a/", pushing "/" onto
   * the root and popping returns "" instead of the escaped "a/".
   */
  lemma PlaceholderWithDelimiterBreaksRoundTrip()
    ensures ReplaceAll("/", "/", "a/") == "a/"
    ensures var parts := Explode("/", "/" + "/" + "a/");
            parts[|parts| - 1] == "" && parts[|parts| - 1] != ReplaceAll("/", "/", "a/")
  {
    assert ("/" + "/" + "a/")[1..] == "/a/";
    assert "/a/"[1..] == "a/";
    assert "a/"[1..] == "/";
    assert "/"[1..] == "";
  }

  /**
   * The root base is the delimiter itself, which explodes into two empty
   * layers: popping it returns the empty layer and leaves the base empty, and
   * only a second pop returns null.
   */
  lemma RootPopsEmptyLayer(d: string)
    requires |d| > 0
    ensures Explode(d, d) == ["", ""]
    ensures Implode(d, Explode(d, d)[..1]) == ""
  {
    assert d[..|d|] == d;
    assert d[|d|..] == "";
  }

  class HierarchicalSimpleCache {
    /** The engine every cache call is forwarded to. */
    const engine: SimpleCache
    /** The current base of the hierarchy. */
    var base: string
    /** Separates layers of the hierarchy. */
    var delimiter: string
    /** Replaces literal delimiters inside one layer. */
    var placeholder: string

    /** Delimiter and placeholder are distinct and non-empty. */
    ghost predicate Valid()
      reads this, engine
    {
      engine.Valid() && |delimiter| > 0 && |placeholder| > 0 && delimiter != placeholder
    }

    /**
     * The part of the constructor after the engine's: setBase runs before
     * setDelimiter and setPlaceholder, so a missing base becomes the default
     * delimiter even when a custom delimiter is given. A missing delimiter or
     * placeholder has length 0 and is refused by its setter.
     */
    constructor (engine: SimpleCache, base: Option<string>, delimiter: Option<string>, placeholder: Option<string>)
      requires engine.Valid()
      ensures Valid() && this.engine == engine
      ensures this.base == base.GetOr(DEFAULT_DELIMITER)
      ensures this.delimiter ==
                if delimiter.Some? && delimiter.value != DEFAULT_PLACEHOLDER && |delimiter.value| > 0
                then delimiter.value else DEFAULT_DELIMITER
      ensures this.placeholder ==
                if placeholder.Some? && placeholder.value != this.delimiter && |placeholder.value| > 0
                then placeholder.value else DEFAULT_PLACEHOLDER
    {
      this.engine := engine;
      this.base := "";
      this.delimiter := DEFAULT_DELIMITER;
      this.placeholder := DEFAULT_PLACEHOLDER;
      new;
      SetBase(base);
      var delimiterSet := SetDelimiter(delimiter.GetOr(""));
      var placeholderSet := SetPlaceholder(placeholder.GetOr(""));
    }

    /**
     * `new HierarchicalSimpleCache($sql, $base, $delimiter, $table, $key, $cache,
     * $purgeExpired, $placeholder)`: the engine's construction, which may throw,
     * then the namespace's own settings.
     */
    static method Create(connected: bool, escape: string -> string, existing: seq<Row>,
                         base: Option<string>, delimiter: Option<string>,
                         table: Option<string>, key: Option<string>, cache: Option<string>,
                         purge: bool, placeholder: Option<string>, now: int, db: Backend)
      returns (r: Result<HierarchicalSimpleCache, CacheError>)
      ensures r.Err? <==> !NamesAccepted(connected, escape, table, key, cache) || (purge && !(connected && db.createSucceeds))
      ensures r.Err? ==> r.error == if Refused(connected, escape, table) then InvalidName(table.value)
                                    else if Refused(connected, escape, key) then InvalidName(key.value)
                                    else if Refused(connected, escape, cache) then InvalidName(cache.value)
                                    else DatabaseNotInitialized
      ensures r.Ok? ==> fresh(r.value) && fresh(r.value.engine) && r.value.Valid()
      ensures r.Ok? ==> r.value.base == base.GetOr(DEFAULT_DELIMITER)
      ensures r.Ok? ==> r.value.delimiter ==
                          if delimiter.Some? && delimiter.value != DEFAULT_PLACEHOLDER && |delimiter.value| > 0
                          then delimiter.value else DEFAULT_DELIMITER
      ensures r.Ok? ==> r.value.placeholder ==
                          if placeholder.Some? && placeholder.value != r.value.delimiter && |placeholder.value| > 0
                          then placeholder.value else DEFAULT_PLACEHOLDER
      ensures r.Ok? ==> r.value.engine.connected == connected && r.value.engine.escape == escape
      ensures r.Ok? ==> r.value.engine.lifetime == DEFAULT_LIFETIME && r.value.engine.initialized == purge
      ensures r.Ok? ==> r.value.engine.tableName == Configured(connected, table, DEFAULT_TABLE)
                        && r.value.engine.keyName == Configured(connected, key, DEFAULT_KEY)
                        && r.value.engine.cacheName == Configured(connected, cache, DEFAULT_CACHE)
      ensures r.Ok? ==> r.value.engine.rows == if purge && db.statementSucceeds then Purge(existing, now) else existing
    {
      var made := SimpleCache.Create(connected, escape, existing, table, key, cache, purge, now, db);
      if made.Err? {
        return Err(made.error);
      }
      var h := new HierarchicalSimpleCache(made.value, base, delimiter, placeholder);
      return Ok(h);
    }

    /**
     * getSingleLayer: every delimiter in the layer becomes the placeholder, so
     * with a one-character delimiter absent from the placeholder the layer
     * holds no delimiter any more.
     */
    function GetSingleLayer(layer: string): (r: string)
      reads this
      ensures |delimiter| == 1 && delimiter[0] !in placeholder ==> delimiter[0] !in r
      ensures |delimiter| == 1 && delimiter[0] !in layer ==> r == layer
    {
      ReplaceAll(layer, delimiter, placeholder)
    }

    /**
     * getHierarchicalKey: the base, the delimiter and the escaped key. Read
     * back through explode, the key is exactly one layer below the base.
     */
    function GetHierarchicalKey(key: string): (r: string)
      reads this
      ensures base + delimiter <= r
      ensures |delimiter| == 1 && delimiter[0] !in placeholder
              ==> Explode(delimiter, r) == Explode(delimiter, base) + [GetSingleLayer(key)]
    {
      var single := GetSingleLayer(key);
      if |delimiter| == 1 && delimiter[0] !in placeholder then
        ExplodeAppend(delimiter, base, single);
        base + delimiter + single
      else
        base + delimiter + single
    }

    /** setBase: a missing base defaults to the current delimiter. */
    method SetBase(base: Option<string>)
      requires Valid()
      modifies this`base
      ensures Valid()
      ensures this.base == base.GetOr(delimiter)
    {
      this.base := if base.Some? then base.value else delimiter;
    }

    /** getBase */
    method GetBase() returns (b: string)
      ensures b == base
    {
      return base;
    }

    /** setDelimiter: refuses an empty delimiter or one equal to the placeholder. */
    method SetDelimiter(delimiter: string) returns (ok: bool)
      requires Valid()
      modifies this`delimiter
      ensures Valid()
      ensures ok <==> delimiter != placeholder && |delimiter| > 0
      ensures this.delimiter == if ok then delimiter else old(this.delimiter)
    {
      if delimiter != placeholder && |delimiter| > 0 {
        this.delimiter := delimiter;
        return true;
      }
      return false;
    }

    /** setPlaceholder: refuses an empty placeholder or one equal to the delimiter. */
    method SetPlaceholder(placeholder: string) returns (ok: bool)
      requires Valid()
      modifies this`placeholder
      ensures Valid()
      ensures ok <==> placeholder != delimiter && |placeholder| > 0
      ensures this.placeholder == if ok then placeholder else old(this.placeholder)
    {
      if placeholder != delimiter && |placeholder| > 0 {
        this.placeholder := placeholder;
        return true;
      }
      return false;
    }

    /** pushKey: appends the delimiter and the escaped layer to the base; returns the new base. */
    method PushKey(layer: string) returns (newBase: string)
      requires Valid()
      modifies this`base
      ensures Valid()
      ensures base == old(base) + delimiter + GetSingleLayer(layer) && newBase == base
      ensures |delimiter| == 1 && delimiter[0] !in placeholder
              ==> Explode(delimiter, base) == Explode(delimiter, old(base)) + [GetSingleLayer(layer)]
    {
      base := base + delimiter + GetSingleLayer(layer);
      if |delimiter| == 1 && delimiter[0] !in placeholder {
        ExplodeAppend(delimiter, old(base), GetSingleLayer(layer));
      }
      return base;
    }

    /**
     * popKey: on an empty base returns null and changes nothing. Otherwise
     * explodes the base, removes and returns the last layer and implodes the
     * rest, or empties the base when there was a single layer; the base always
     * gets shorter. With a one-character delimiter the returned layer is the
     * text after the last delimiter.
     */
    method PopKey() returns (layer: Option<string>)
      requires Valid()
      modifies this`base
      ensures Valid()
      ensures old(base) == "" ==> layer.None? && base == old(base)
      ensures old(base) != "" ==>
                var parts := Explode(delimiter, old(base));
                && layer == Some(parts[|parts| - 1])
                && base == if |parts| > 1 then Implode(delimiter, parts[..|parts| - 1]) else ""
      ensures old(base) != "" ==>
                && layer.Some?
                && |base| < |old(base)|
                && (old(base) == base + delimiter + layer.value || (base == "" && old(base) == layer.value))
      ensures old(base) != "" && |delimiter| == 1 ==>
                && delimiter[0] !in layer.value
                && (delimiter[0] in old(base) ==> old(base) == base + delimiter + layer.value)
                && (delimiter[0] !in old(base) ==> base == "" && layer.value == old(base))
    {
      if |base| > 0 {
        var layers := Explode(delimiter, base);
        var last := |layers| - 1;
        var removed := layers[last];
        SplitLast(delimiter, base);
        if |delimiter| == 1 && last > 0 {
          ImplodeContainsDelimiter(delimiter, layers);
        }
        if last > 0 {
          base := Implode(delimiter, layers[..last]);
        } else {
          base := "";
        }
        return Some(removed);
      }
      return None;
    }

    /** getCache on the hierarchical key. */
    method GetCache(key: string, now: int, db: Backend) returns (r: Result<Option<string>, CacheError>)
      requires Valid()
      modifies engine`initialized
      ensures Valid()
      ensures engine.initialized == (old(engine.initialized) || (engine.connected && db.createSucceeds))
      ensures !engine.initialized ==> r == Err(DatabaseNotInitialized)
      ensures engine.initialized ==>
                r == Ok(if db.statementSucceeds
                        then Lookup(engine.rows, GetHierarchicalKey(key), engine.lifetime, now)
                        else None)
    {
      r := engine.GetCache(GetHierarchicalKey(key), now, db);
    }

    /**
     * setCache on the hierarchical key. The lifetime argument defaults to
     * `false`, not `null`: without one the row is stored with `expire = now`.
     */
    method SetCache(key: string, payload: string, now: int, db: Backend, arg: LifetimeArg := FalseArg)
      returns (r: Result<bool, CacheError>)
      requires Valid()
      modifies engine`initialized, engine`rows
      ensures Valid()
      ensures engine.initialized == (old(engine.initialized) || (engine.connected && db.createSucceeds))
      ensures !engine.initialized ==> r == Err(DatabaseNotInitialized) && engine.rows == old(engine.rows)
      ensures engine.initialized && db.statementSucceeds ==>
                && r == Ok(true)
                && engine.rows == Store(old(engine.rows), GetHierarchicalKey(key), payload,
                                        Expiry(arg, engine.lifetime, now), now)
      ensures engine.initialized && !db.statementSucceeds ==> r == Err(CacheWrite) && engine.rows == old(engine.rows)
    {
      r := engine.SetCache(GetHierarchicalKey(key), payload, now, db, arg);
    }

    /** resetCache on the hierarchical key. */
    method ResetCache(key: string, db: Backend) returns (r: Result<bool, CacheError>)
      requires Valid()
      modifies engine`initialized, engine`rows
      ensures Valid()
      ensures engine.initialized == (old(engine.initialized) || (engine.connected && db.createSucceeds))
      ensures !engine.initialized ==> r == Err(DatabaseNotInitialized) && engine.rows == old(engine.rows)
      ensures engine.initialized ==> r == Ok(db.statementSucceeds)
      ensures engine.initialized && db.statementSucceeds ==> engine.rows == Remove(old(engine.rows), GetHierarchicalKey(key))
      ensures !db.statementSucceeds ==> engine.rows == old(engine.rows)
    {
      r := engine.ResetCache(GetHierarchicalKey(key), db);
    }

    /** getCacheTimestamp on the hierarchical key. */
    method GetCacheTimestamp(key: string, db: Backend) returns (r: Result<Option<int>, CacheError>)
      requires Valid()
      modifies engine`initialized
      ensures Valid()
      ensures engine.initialized == (old(engine.initialized) || (engine.connected && db.createSucceeds))
      ensures !engine.initialized ==> r == Err(DatabaseNotInitialized)
      ensures engine.initialized && db.statementSucceeds ==>
                && r.Ok?
                && (r.value.None? <==> FirstRow(engine.rows, GetHierarchicalKey(key)).None?)
                && (r.value.Some? ==> r.value.value == FirstRow(engine.rows, GetHierarchicalKey(key)).value.timestamp)
      ensures engine.initialized && !db.statementSucceeds ==> r == Ok(None)
    {
      r := engine.GetCacheTimestamp(GetHierarchicalKey(key), db);
    }

    /** getCacheExpiration on the hierarchical key. */
    method GetCacheExpiration(key: string, now: int, db: Backend) returns (r: Result<Option<int>, CacheError>)
      requires Valid()
      modifies engine`initialized
      ensures Valid()
      ensures engine.initialized == (old(engine.initialized) || (engine.connected && db.createSucceeds))
      ensures !engine.initialized ==> r == Err(DatabaseNotInitialized)
      ensures engine.initialized && db.statementSucceeds ==>
                && r.Ok?
                && (r.value.None? <==> FirstRow(engine.rows, GetHierarchicalKey(key)).None?)
                && (r.value.Some? ==> r.value.value == FirstRow(engine.rows, GetHierarchicalKey(key)).value.expire.GetOr(now))
      ensures engine.initialized && !db.statementSucceeds ==> r == Ok(None)
    {
      r := engine.GetCacheExpiration(GetHierarchicalKey(key), now, db);
    }
  }
}
