/** The current client (src/datastoreflex/client.py): a datastore client
    that offloads configured columns to a blob store on write and merges
    them back on read, allocating ids for keys that have none before any
    path is built, and appending str(id_or_name) to every path. */
module Flex {
  import opened Values
  import opened Paths
  import opened Stores
  import opened Columns
  import opened Config
  import opened Client
  import opened Allocation
  import opened RoundTrip

  /** `_write_columns(entities)`: `_allocate_ids` first, which may raise
      before the configuration is read or anything is uploaded, then the
      column loop over the batch with its allocated keys. */
  function AllocWriteSpec(namespace: Option<string>, cache: ConfigCache, records: map<Key, Props>, nextId: int,
                          objects: Objects, snaps: seq<Snap>, compress: Option<string>, level: Option<int>,
                          cacheControl: string): WriteState
  {
    var a := AllocateSpec(snaps, nextId);
    if a.error.Some? then WriteState(snaps, objects, cache, a.error)
    else WriteColumnsSpec(Stringified, namespace, cache, records, objects, a.snaps, compress, level, cacheControl)
  }

  /** `put_multi(entities)`: `_write_columns`, then the parent's put of the batch. */
  function AllocPutSpec(namespace: Option<string>, cache: ConfigCache, records: map<Key, Props>, nextId: int,
                        objects: Objects, snaps: seq<Snap>, compress: Option<string>, level: Option<int>,
                        cacheControl: string): PutState
  {
    var a := AllocateSpec(snaps, nextId);
    if a.error.Some? then PutState(snaps, objects, records, nextId, cache, a.error)
    else PutMultiSpec(Stringified, namespace, cache, records, a.nextId, objects, a.snaps, compress, level, cacheControl)
  }

  /** The put as the write followed by the commit of what the write left. */
  lemma AllocPutAfterWrite(namespace: Option<string>, cache: ConfigCache, records: map<Key, Props>, nextId: int,
                           objects: Objects, snaps: seq<Snap>, compress: Option<string>, level: Option<int>,
                           cacheControl: string)
    ensures var a := AllocateSpec(snaps, nextId);
            var w := AllocWriteSpec(namespace, cache, records, nextId, objects, snaps, compress, level, cacheControl);
            var c := Completed(w.snaps, a.nextId);
            AllocPutSpec(namespace, cache, records, nextId, objects, snaps, compress, level, cacheControl) ==
            if w.error.Some? then PutState(w.snaps, w.objects, records, a.nextId, w.cache, w.error)
            else PutState(c, w.objects, Commit(records, c), a.nextId + PartialCount(w.snaps), w.cache, None)
  {
  }

  /** `put(entity)` followed by `get` of the entity's key gives back the
      entity as it was put, under its allocated key: the put fills `_config`,
      so the get reads the columns with the very configuration the put wrote
      them with. It needs a key that has an id or no name (see
      `NamedKeyPutRaises` for the other case), independent columns, paths
      that do not raise, and no blob already stored where a column that is
      not offloaded would be looked up. */
  lemma PutThenGet(namespace: Option<string>, cache: ConfigCache, records: map<Key, Props>, nextId: int,
                   objects: Objects, s: Snap, compress: Option<string>, level: Option<int>, cacheControl: string)
    requires !(s.key.id.None? && s.key.name.Some?)
    requires ConfigAccess(cache, records, namespace).result.Ok?
    requires var cols := ColumnsOf(ConfigAccess(cache, records, namespace).result.value);
             Independent(cols) && NoStaleBlobs(Stringified, cols, AllocateSpec([s], nextId).snaps[0], objects)
    ensures var a := AllocateSpec([s], nextId);
            var s1 := a.snaps[0];
            var p := AllocPutSpec(namespace, cache, records, nextId, objects, [s], compress, level, cacheControl);
            a.error.None? && s1.key.id.Some? && s1.props == s.props && p.error.None? &&
            GetSpec(Stringified, namespace, p.cache, p.records, p.objects, s1.key).result == Ok(Some(s1))
  {
    AllocateOne(s, nextId);
    var a := AllocateSpec([s], nextId);
    var s1 := a.snaps[0];
    assert a.snaps == [s1];
    assert AllocPutSpec(namespace, cache, records, nextId, objects, [s], compress, level, cacheControl) ==
           PutMultiSpec(Stringified, namespace, cache, records, a.nextId, objects, [s1], compress, level, cacheControl);
    PutOneThenGet(Stringified, namespace, cache, records, a.nextId, objects, s1, compress, level, cacheControl);
  }

  /** A batch whose first entity without an id has a name raises ValueError
      in `_allocate_ids`: nothing is uploaded, nothing is committed, no id
      is taken and `_config` is not read. */
  lemma NamedKeyPutRaises(namespace: Option<string>, cache: ConfigCache, records: map<Key, Props>, nextId: int,
                          objects: Objects, snaps: seq<Snap>, i: nat, compress: Option<string>, level: Option<int>,
                          cacheControl: string)
    requires i < |snaps| && snaps[i].key.id.None? && snaps[i].key.name.Some?
    requires forall j :: 0 <= j < i ==> snaps[j].key.id.Some?
    ensures AllocPutSpec(namespace, cache, records, nextId, objects, snaps, compress, level, cacheControl) ==
            PutState(snaps, objects, records, nextId, cache, Some(ValueError))
  {
    AllocateRaises(snaps, nextId);
  }

  class DatastoreFlex {
    const namespace: Option<string>
    /** The metadata store behind the parent datastore client. */
    const store: MetaStore
    /** The blob store behind CloudFiles. */
    const blobs: BlobStore
    /** `_config`. */
    var cache: ConfigCache

    constructor (namespace: Option<string>, store: MetaStore, blobs: BlobStore)
      ensures this.namespace == namespace && this.store == store && this.blobs == blobs
      ensures cache.None?
    {
      this.namespace := namespace;
      this.store := store;
      this.blobs := blobs;
      cache := None;
    }

    /** The `config` property. */
    method Config() returns (r: Result<map<string, ColumnConfigs>>)
      modifies this
      ensures Access(r, cache) == ConfigAccess(old(cache), store.records, namespace)
    {
      if cache.None? {
        cache := Some(map[]);
        var err := ReadConfig();
        if err.Some? {
          return Err(err.value);
        }
      }
      r := Ok(cache.value);
    }

    /** `add_config(config)`: store the configuration record and forget the cached one. */
    method AddConfig(cfg: ColumnConfigs := []) returns (e: Entity)
      modifies this, store
      ensures fresh(e) && e.key == ConfigKey(namespace) && e.props == ConfigRecord(cfg)
      ensures store.records == old(store.records)[ConfigKey(namespace) := ConfigRecord(cfg)]
      ensures store.nextId == old(store.nextId) && cache.None?
    {
      e := new Entity(ConfigKey(namespace), ConfigRecord(cfg));
      NoPartialCompleted([Snap(e.key, e.props)], store.nextId);
      store.PutMulti([e]);
      CommitOne(old(store.records), Snap(e.key, e.props));
      cache := None;
    }

    /** `_read_config`: fill in "column" from the configuration record. */
    method ReadConfig() returns (err: Option<Error>)
      requires cache.Some?
      modifies this
      ensures LoadConfig(store.records, namespace).Ok? ==>
                err.None? && cache == Some(old(cache).value[ColumnConfigKeyName := LoadConfig(store.records, namespace).value])
      ensures LoadConfig(store.records, namespace).Err? ==>
                err == Some(LoadConfig(store.records, namespace).error) && cache == old(cache)
    {
      var found := store.GetMulti([ConfigKey(namespace)]);
      FoundOne(store.records, ConfigKey(namespace));
      if |found| == 0 {
        cache := Some(cache.value[ColumnConfigKeyName := []]);
        return None;
      }
      var decoded := Decode(found[0].props);
      if decoded.Err? {
        return Some(decoded.error);
      }
      cache := Some(cache.value[ColumnConfigKeyName := decoded.value]);
      return None;
    }

    /** `_read_columns(entities)`: for each configured column in order, fetch
        the blobs of the batch and set the column of every entity whose
        fetch found content. */
    method ReadColumns(entities: seq<Entity>) returns (err: Option<Error>)
      requires Distinct(entities)
      modifies this, entities
      ensures ReadState(Snapshot(entities), cache, err) ==
              ReadColumnsSpec(Stringified, namespace, old(cache), store.records, blobs.objects, old(Snapshot(entities)))
    {
      var config := Config();
      if config.Err? {
        return Some(config.error);
      }
      err := FetchColumns(Stringified, blobs, ColumnsOf(config.value), entities);
    }

    /** `_allocate_ids(entities)`: give every entity whose key has no id a
        key allocated from the first such key. */
    method AllocateIds(entities: seq<Entity>) returns (err: Option<Error>)
      requires Distinct(entities)
      modifies entities, store
      ensures var a := AllocateSpec(old(Snapshot(entities)), old(store.nextId));
              Snapshot(entities) == a.snaps && store.nextId == a.nextId && err == a.error
      ensures store.records == old(store.records)
    {
      ghost var pre := Snapshot(entities);
      ghost var keys := KeysOf(pre);
      var unnamed := UnnamedPositions(entities);
      if |unnamed| > 0 {
        err := RenameUnnamed(entities, unnamed);
      } else {
        assert Allocated(keys, store.nextId) == keys;
        assert WithKeys(pre, keys) == pre;
        err := None;
      }
    }

    /** The branch of `_allocate_ids` with keys to allocate: `allocate_ids`
        from the first of them, then the new keys in order. */
    method RenameUnnamed(entities: seq<Entity>, unnamed: seq<nat>) returns (err: Option<Error>)
      requires Distinct(entities) && |unnamed| > 0
      requires unnamed == Unnamed(KeysOf(Snapshot(entities)))
      modifies entities, store
      ensures var a := AllocateSpec(old(Snapshot(entities)), old(store.nextId));
              Snapshot(entities) == a.snaps && store.nextId == a.nextId && err == a.error
      ensures store.records == old(store.records)
    {
      ghost var pre := Snapshot(entities);
      ghost var keys := KeysOf(pre);
      ghost var next := store.nextId;
      var base := entities[unnamed[0]].key;
      assert base == keys[unnamed[0]];
      var ids := store.AllocateIds(base, |unnamed|);
      assert Snapshot(entities) == pre;
      if ids.Err? {
        return Some(ids.error);
      }
      assert ids.value == AllocatedKeys(keys[unnamed[0]], next, |unnamed|);
      AssignKeys(entities, unnamed, ids.value);
      assert Allocated(keys, next) == Reassign(keys, unnamed, ids.value);
      err := None;
    }

    /** `_write_columns(entities, ...)`: allocate ids, then for each
        configured column in order upload the column of every entity that
        has a path and the column, and pop it from the entity. */
    method WriteColumns(entities: seq<Entity>, compression: Option<string>, compressionLevel: Option<int>,
                        cacheControlEnv: Option<string>)
      returns (err: Option<Error>)
      requires Distinct(entities)
      modifies this, entities, store, blobs
      ensures WriteState(Snapshot(entities), blobs.objects, cache, err) ==
              AllocWriteSpec(namespace, old(cache), old(store.records), old(store.nextId), old(blobs.objects),
                             old(Snapshot(entities)), compression, compressionLevel, CacheControl(cacheControlEnv))
      ensures store.nextId == AllocateSpec(old(Snapshot(entities)), old(store.nextId)).nextId
      ensures store.records == old(store.records)
    {
      err := AllocateIds(entities);
      if err.Some? {
        return;
      }
      err := WriteAllocated(entities, compression, compressionLevel, cacheControlEnv);
    }

    /** The part of `_write_columns` after `_allocate_ids`: the column loop
        with the configured columns. */
    method WriteAllocated(entities: seq<Entity>, compression: Option<string>, compressionLevel: Option<int>,
                          cacheControlEnv: Option<string>)
      returns (err: Option<Error>)
      requires Distinct(entities)
      modifies this, entities, blobs
      ensures WriteState(Snapshot(entities), blobs.objects, cache, err) ==
              WriteColumnsSpec(Stringified, namespace, old(cache), store.records, old(blobs.objects), old(Snapshot(entities)),
                               compression, compressionLevel, CacheControl(cacheControlEnv))
    {
      var config := Config();
      if config.Err? {
        return Some(config.error);
      }
      err := OffloadColumns(Stringified, blobs, ColumnsOf(config.value), entities,
                            compression, compressionLevel, CacheControl(cacheControlEnv));
    }

    /** `get(key)`. */
    method Get(key: Key) returns (r: Result<Option<Entity>>)
      modifies this
      ensures r.Ok? && r.value.Some? ==> fresh(r.value.value)
      ensures GetState(Observed(r), cache) == GetSpec(Stringified, namespace, old(cache), store.records, blobs.objects, key)
    {
      var found := store.GetMulti([key]);
      if |found| == 0 {
        assert key !in store.records by { FoundOne(store.records, key); }
        return Ok(None);
      }
      var e := found[0];
      assert key in store.records && Snapshot([e]) == [Snap(key, store.records[key])] by {
        FoundOne(store.records, key);
        assert e in found;
      }
      ghost var rs := ReadColumnsSpec(Stringified, namespace, cache, store.records, blobs.objects, [Snap(key, store.records[key])]);
      var err := ReadColumns([e]);
      assert ReadState(Snapshot([e]), cache, err) == rs;
      r := if err.Some? then Err(err.value) else Ok(Some(e));
      assert Observed(r) == if rs.error.Some? then Err(rs.error.value) else Ok(Some(rs.snaps[0]));
    }

    /** `get_multi(keys)`. */
    method GetMulti(keys: seq<Key>) returns (r: Result<seq<Entity>>)
      modifies this
      ensures r.Ok? ==> fresh(set e | e in r.value)
      ensures GetMultiState(ObservedAll(r), cache) ==
              GetMultiSpec(Stringified, namespace, old(cache), store.records, blobs.objects, keys)
    {
      var found := store.GetMulti(keys);
      var err := ReadColumns(found);
      if err.Some? {
        return Err(err.value);
      }
      return Ok(found);
    }

    /** `put(entity)`: write the columns (allocating an id if the key has
        none), then commit the entity. */
    method Put(entity: Entity, cacheControlEnv: Option<string>,
               compression: Option<string> := Some("gzip"), compressionLevel: Option<int> := Some(6))
      returns (err: Option<Error>)
      modifies this, entity, store, blobs
      ensures PutState(Snapshot([entity]), blobs.objects, store.records, store.nextId, cache, err) ==
              AllocPutSpec(namespace, old(cache), old(store.records), old(store.nextId), old(blobs.objects),
                           old(Snapshot([entity])), compression, compressionLevel, CacheControl(cacheControlEnv))
    {
      err := PutMulti([entity], cacheControlEnv, compression, compressionLevel);
    }

    /** `put_multi(entities)`: write the columns of the batch, then commit it. */
    method PutMulti(entities: seq<Entity>, cacheControlEnv: Option<string>,
                    compression: Option<string> := Some("gzip"), compressionLevel: Option<int> := Some(6))
      returns (err: Option<Error>)
      requires Distinct(entities)
      modifies this, entities, store, blobs
      ensures PutState(Snapshot(entities), blobs.objects, store.records, store.nextId, cache, err) ==
              AllocPutSpec(namespace, old(cache), old(store.records), old(store.nextId), old(blobs.objects),
                           old(Snapshot(entities)), compression, compressionLevel, CacheControl(cacheControlEnv))
    {
      ghost var a := AllocateSpec(Snapshot(entities), store.nextId);
      ghost var w := AllocWriteSpec(namespace, cache, store.records, store.nextId, blobs.objects, Snapshot(entities),
                                    compression, compressionLevel, CacheControl(cacheControlEnv));
      AllocPutAfterWrite(namespace, cache, store.records, store.nextId, blobs.objects, Snapshot(entities),
                         compression, compressionLevel, CacheControl(cacheControlEnv));
      ghost var records0 := store.records;
      err := WriteColumns(entities, compression, compressionLevel, cacheControlEnv);
      assert WriteState(Snapshot(entities), blobs.objects, cache, err) == w;
      assert store.nextId == a.nextId && store.records == records0;
      CommitWritten(store, entities, err);
    }
  }
}
