/** The historical client (datastoreflex/client.py): the same coordinator
    without id allocation, whose paths end in the key's id or name as it is,
    not passed through str(). */
module LegacyFlex {
  import opened Values
  import opened Paths
  import opened Stores
  import opened Columns
  import opened Config
  import opened Client

  class DatastoreFlex {
    const namespace: Option<string>
    /** The metadata store behind the parent datastore client. */
    const store: MetaStore
    /** The blob store behind CloudFiles. */
    const blobs: BlobStore
    /** `_config`. */
    var cache: ConfigCache

    constructor (namespace: Option<string>, store: MetaStore, blobs: BlobStore)
      ensures this.namespace == namespace && this.store == store && this.blobs == blobs
      ensures cache.None?
    {
      this.namespace := namespace;
      this.store := store;
      this.blobs := blobs;
      cache := None;
    }

    /** The `config` property. */
    method Config() returns (r: Result<map<string, ColumnConfigs>>)
      modifies this
      ensures Access(r, cache) == ConfigAccess(old(cache), store.records, namespace)
    {
      if cache.None? {
        cache := Some(map[]);
        var err := ReadConfig();
        if err.Some? {
          return Err(err.value);
        }
      }
      r := Ok(cache.value);
    }

    /** `add_config(config)`: store the configuration record and forget the cached one. */
    method AddConfig(cfg: ColumnConfigs := []) returns (e: Entity)
      modifies this, store
      ensures fresh(e) && e.key == ConfigKey(namespace) && e.props == ConfigRecord(cfg)
      ensures store.records == old(store.records)[ConfigKey(namespace) := ConfigRecord(cfg)]
      ensures store.nextId == old(store.nextId) && cache.None?
    {
      e := new Entity(ConfigKey(namespace), ConfigRecord(cfg));
      NoPartialCompleted([Snap(e.key, e.props)], store.nextId);
      store.PutMulti([e]);
      CommitOne(old(store.records), Snap(e.key, e.props));
      cache := None;
    }

    /** `_read_config`: fill in "column" from the configuration record. */
    method ReadConfig() returns (err: Option<Error>)
      requires cache.Some?
      modifies this
      ensures LoadConfig(store.records, namespace).Ok? ==>
                err.None? && cache == Some(old(cache).value[ColumnConfigKeyName := LoadConfig(store.records, namespace).value])
      ensures LoadConfig(store.records, namespace).Err? ==>
                err == Some(LoadConfig(store.records, namespace).error) && cache == old(cache)
    {
      var found := store.GetMulti([ConfigKey(namespace)]);
      FoundOne(store.records, ConfigKey(namespace));
      if |found| == 0 {
        cache := Some(cache.value[ColumnConfigKeyName := []]);
        return None;
      }
      var decoded := Decode(found[0].props);
      if decoded.Err? {
        return Some(decoded.error);
      }
      cache := Some(cache.value[ColumnConfigKeyName := decoded.value]);
      return None;
    }

    /** `_read_columns(entities)`: for each configured column in order, fetch
        the blobs of the batch and set the column of every entity whose
        fetch found content. */
    method ReadColumns(entities: seq<Entity>) returns (err: Option<Error>)
      requires Distinct(entities)
      modifies this, entities
      ensures ReadState(Snapshot(entities), cache, err) ==
              ReadColumnsSpec(Raw, namespace, old(cache), store.records, blobs.objects, old(Snapshot(entities)))
    {
      var config := Config();
      if config.Err? {
        return Some(config.error);
      }
      err := FetchColumns(Raw, blobs, ColumnsOf(config.value), entities);
    }

    /** `_write_columns(entities, ...)`: for each configured column in order,
        upload the column of every entity that has a path and the column,
        and pop it from the entity. */
    method WriteColumns(entities: seq<Entity>, compression: Option<string>, compressionLevel: Option<int>,
                        cacheControlEnv: Option<string>)
      returns (err: Option<Error>)
      requires Distinct(entities)
      modifies this, entities, blobs
      ensures WriteState(Snapshot(entities), blobs.objects, cache, err) ==
              WriteColumnsSpec(Raw, namespace, old(cache), store.records, old(blobs.objects), old(Snapshot(entities)),
                               compression, compressionLevel, CacheControl(cacheControlEnv))
    {
      var config := Config();
      if config.Err? {
        return Some(config.error);
      }
      err := OffloadColumns(Raw, blobs, ColumnsOf(config.value), entities,
                            compression, compressionLevel, CacheControl(cacheControlEnv));
    }

    /** `get(key)`. */
    method Get(key: Key) returns (r: Result<Option<Entity>>)
      modifies this
      ensures r.Ok? && r.value.Some? ==> fresh(r.value.value)
      ensures GetState(Observed(r), cache) == GetSpec(Raw, namespace, old(cache), store.records, blobs.objects, key)
    {
      var found := store.GetMulti([key]);
      if |found| == 0 {
        assert key !in store.records by { FoundOne(store.records, key); }
        return Ok(None);
      }
      var e := found[0];
      assert key in store.records && Snapshot([e]) == [Snap(key, store.records[key])] by {
        FoundOne(store.records, key);
        assert e in found;
      }
      ghost var rs := ReadColumnsSpec(Raw, namespace, cache, store.records, blobs.objects, [Snap(key, store.records[key])]);
      var err := ReadColumns([e]);
      assert ReadState(Snapshot([e]), cache, err) == rs;
      r := if err.Some? then Err(err.value) else Ok(Some(e));
      assert Observed(r) == if rs.error.Some? then Err(rs.error.value) else Ok(Some(rs.snaps[0]));
    }

    /** `get_multi(keys)`. */
    method GetMulti(keys: seq<Key>) returns (r: Result<seq<Entity>>)
      modifies this
      ensures r.Ok? ==> fresh(set e | e in r.value)
      ensures GetMultiState(ObservedAll(r), cache) == GetMultiSpec(Raw, namespace, old(cache), store.records, blobs.objects, keys)
    {
      var found := store.GetMulti(keys);
      var err := ReadColumns(found);
      if err.Some? {
        return Err(err.value);
      }
      return Ok(found);
    }

    /** `put(entity)`: write the columns, then commit the entity. */
    method Put(entity: Entity, cacheControlEnv: Option<string>,
               compression: Option<string> := Some("gzip"), compressionLevel: Option<int> := Some(6))
      returns (err: Option<Error>)
      modifies this, entity, store, blobs
      ensures PutState(Snapshot([entity]), blobs.objects, store.records, store.nextId, cache, err) ==
              PutMultiSpec(Raw, namespace, old(cache), old(store.records), old(store.nextId), old(blobs.objects),
                           old(Snapshot([entity])), compression, compressionLevel, CacheControl(cacheControlEnv))
    {
      err := PutMulti([entity], cacheControlEnv, compression, compressionLevel);
    }

    /** `put_multi(entities)`: write the columns of the batch, then commit it;
        the commit completes keys that are still partial. */
    method PutMulti(entities: seq<Entity>, cacheControlEnv: Option<string>,
                    compression: Option<string> := Some("gzip"), compressionLevel: Option<int> := Some(6))
      returns (err: Option<Error>)
      requires Distinct(entities)
      modifies this, entities, store, blobs
      ensures PutState(Snapshot(entities), blobs.objects, store.records, store.nextId, cache, err) ==
              PutMultiSpec(Raw, namespace, old(cache), old(store.records), old(store.nextId), old(blobs.objects),
                           old(Snapshot(entities)), compression, compressionLevel, CacheControl(cacheControlEnv))
    {
      ghost var w := WriteColumnsSpec(Raw, namespace, cache, store.records, blobs.objects, Snapshot(entities),
                                      compression, compressionLevel, CacheControl(cacheControlEnv));
      err := WriteColumns(entities, compression, compressionLevel, cacheControlEnv);
      assert WriteState(Snapshot(entities), blobs.objects, cache, err) == w;
      CommitWritten(store, entities, err);
    }
  }

  /** A column whose path element the entity lacks neither uploads nor
      strips anything, so a batch of one such entity is written unchanged. */
  lemma {:induction false} AllMissingWritesNothing(cols: ColumnConfigs, s: Snap, objects: Objects,
                                                  compress: Option<string>, level: Option<int>, cacheControl: string)
    requires forall k :: 0 <= k < |cols| ==> Missing(cols[k].pathElements, s.props)
    ensures var out := WriteSpec(Raw, cols, [s], objects, compress, level, cacheControl);
            out.error.None? && out.snaps == [s]
    decreases |cols|
  {
    if |cols| > 0 {
      StripExact(Raw, cols[0], [s], objects, compress, level, cacheControl);
      var r := WriteColumn(Raw, cols[0], [s], objects, compress, level, cacheControl);
      assert r.Ok?;
      MissingElementKeepsColumn(Raw, cols[0], [s], objects, compress, level, cacheControl, 0);
      assert r.value.0 == [s];
      assert forall k :: 0 <= k < |cols[1..]| ==> cols[1..][k] == cols[k + 1];
      AllMissingWritesNothing(cols[1..], s, r.value.1, compress, level, cacheControl);
    }
  }

  /** Without id allocation, `put` of an entity whose key is still partial
      reaches the parent's put when no column gives it a path (no column is
      configured, or the entity lacks a path element of every column); the
      parent then commits it under a new id and sets that key on the entity. */
  lemma PartialKeyPut(namespace: Option<string>, cache: ConfigCache, records: map<Key, Props>, nextId: int,
                      objects: Objects, s: Snap, compress: Option<string>, level: Option<int>, cacheControl: string)
    requires Partial(s.key)
    requires ConfigAccess(cache, records, namespace).result.Ok?
    requires var cols := ColumnsOf(ConfigAccess(cache, records, namespace).result.value);
             forall k :: 0 <= k < |cols| ==> Missing(cols[k].pathElements, s.props)
    ensures var p := PutMultiSpec(Raw, namespace, cache, records, nextId, objects, [s], compress, level, cacheControl);
            var key := AllocatedKey(s.key, nextId);
            p.error.None? && p.snaps == [Snap(key, s.props)] && p.records == records[key := s.props] &&
            p.nextId == nextId + 1
  {
    var cols := ColumnsOf(ConfigAccess(cache, records, namespace).result.value);
    AllMissingWritesNothing(cols, s, objects, compress, level, cacheControl);
    assert [s][..0] == [];
    var c := Snap(AllocatedKey(s.key, nextId), s.props);
    assert Completed([s], nextId) == [c];
    CommitOne(records, c);
  }

  /** Without str(), `get` of a stored entity whose key has a numeric id
      raises TypeError as soon as one column is configured: the first
      column's path join fails. */
  lemma NumericIdGetRaises(namespace: Option<string>, cache: ConfigCache, records: map<Key, Props>,
                           objects: Objects, key: Key)
    requires key in records && key.id.Some?
    requires ConfigAccess(cache, records, namespace).result.Ok?
    requires ColumnsOf(ConfigAccess(cache, records, namespace).result.value) != []
    ensures GetSpec(Raw, namespace, cache, records, objects, key).result == Err(TypeError)
  {
    var cols := ColumnsOf(ConfigAccess(cache, records, namespace).result.value);
    var s := Snap(key, records[key]);
    RawIdRaises(cols[0].pathElements, key, s.props, false);
    BatchPathsStep(Raw, cols[0].pathElements, [s], 0, false);
    assert [s][..0] == [] && [s][..1] == [s];
    assert ReadColumn(Raw, cols[0], [s], objects) == Err(TypeError);
    assert ReadSpec(Raw, cols, [s], objects).error == Some(TypeError);
  }

  /** Without str(), `put` of an entity whose key has a numeric id raises
      TypeError when the first column's path elements are all present, and
      nothing is committed. */
  lemma NumericIdPutRaises(namespace: Option<string>, cache: ConfigCache, records: map<Key, Props>, nextId: int,
                           objects: Objects, s: Snap, compress: Option<string>, level: Option<int>, cacheControl: string)
    requires s.key.id.Some?
    requires ConfigAccess(cache, records, namespace).result.Ok?
    requires var cols := ColumnsOf(ConfigAccess(cache, records, namespace).result.value);
             cols != [] && !Missing(cols[0].pathElements, s.props)
    ensures var p := PutMultiSpec(Raw, namespace, cache, records, nextId, objects, [s], compress, level, cacheControl);
            p.error == Some(TypeError) && p.records == records && p.nextId == nextId && p.snaps == [s]
  {
    var cols := ColumnsOf(ConfigAccess(cache, records, namespace).result.value);
    RawIdRaises(cols[0].pathElements, s.key, s.props, true);
    BatchPathsStep(Raw, cols[0].pathElements, [s], 0, true);
    assert [s][..0] == [] && [s][..1] == [s];
    assert WriteColumn(Raw, cols[0], [s], objects, compress, level, cacheControl) == Err(TypeError);
    assert WriteSpec(Raw, cols, [s], objects, compress, level, cacheControl).error == Some(TypeError);
  }
}
