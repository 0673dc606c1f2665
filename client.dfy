/** The client operations stated on values: what `_read_columns`,
    `_write_columns`, `get`, `get_multi` and `put_multi` do to the batch, the
    blob store, the metadata store and `_config`. Both client variants are
    described by these functions; the variant fixes the id style. */
module Client {
  import opened Values
  import opened Paths
  import opened Stores
  import opened Columns
  import opened Config
  import opened RoundTrip

  /** What a caller of `get` sees: the entity's current value, or None, or the exception. */
  ghost function Observed(r: Result<Option<Entity>>): Result<Option<Snap>>
    reads if r.Ok? && r.value.Some? then {r.value.value} else {}
  {
    match r
    case Err(e) => Err(e)
    case Ok(None) => Ok(None)
    case Ok(Some(e)) => Ok(Some(Snap(e.key, e.props)))
  }

  /** What a caller of `get_multi` sees. */
  ghost function ObservedAll(r: Result<seq<Entity>>): Result<seq<Snap>>
    reads if r.Ok? then r.value else []
  {
    match r
    case Err(e) => Err(e)
    case Ok(es) => Ok(Snapshot(es))
  }

  /** The batch and `_config` after `_read_columns`, and the exception, if any. */
  datatype ReadState = ReadState(snaps: seq<Snap>, cache: ConfigCache, error: Option<Error>)

  function ReadColumnsSpec(style: IdStyle, namespace: Option<string>, cache: ConfigCache,
                           records: map<Key, Props>, objects: Objects, snaps: seq<Snap>): (r: ReadState)
    ensures |r.snaps| == |snaps| && forall i :: 0 <= i < |snaps| ==> r.snaps[i].key == snaps[i].key
    ensures r.cache == ConfigAccess(cache, records, namespace).cache
  {
    var a := ConfigAccess(cache, records, namespace);
    match a.result
    case Err(e) => ReadState(snaps, a.cache, Some(e))
    case Ok(config) =>
      var out := ReadSpec(style, ColumnsOf(config), snaps, objects);
      ReadSpecFrame(style, ColumnsOf(config), snaps, objects);
      ReadState(out.snaps, a.cache, out.error)
  }

  /** The batch, the blobs and `_config` after the column loop of
      `_write_columns`, and the exception, if any. */
  datatype WriteState = WriteState(snaps: seq<Snap>, objects: Objects, cache: ConfigCache, error: Option<Error>)

  function WriteColumnsSpec(style: IdStyle, namespace: Option<string>, cache: ConfigCache,
                            records: map<Key, Props>, objects: Objects, snaps: seq<Snap>,
                            compress: Option<string>, level: Option<int>, cacheControl: string): (r: WriteState)
    ensures |r.snaps| == |snaps| && forall i :: 0 <= i < |snaps| ==> r.snaps[i].key == snaps[i].key
    ensures r.cache == ConfigAccess(cache, records, namespace).cache
  {
    var a := ConfigAccess(cache, records, namespace);
    match a.result
    case Err(e) => WriteState(snaps, objects, a.cache, Some(e))
    case Ok(config) =>
      var out := WriteSpec(style, ColumnsOf(config), snaps, objects, compress, level, cacheControl);
      WriteSpecFrame(style, ColumnsOf(config), snaps, objects, compress, level, cacheControl);
      WriteState(out.snaps, out.objects, a.cache, out.error)
  }

  /** What `get(key)` returns and `_config` afterwards. */
  datatype GetState = GetState(result: Result<Option<Snap>>, cache: ConfigCache)

  /** `get(key)`: None without a record (the configuration is not consulted),
      otherwise the record with its columns read back. */
  function GetSpec(style: IdStyle, namespace: Option<string>, cache: ConfigCache,
                   records: map<Key, Props>, objects: Objects, key: Key): GetState
  {
    if key !in records then GetState(Ok(None), cache)
    else
      var r := ReadColumnsSpec(style, namespace, cache, records, objects, [Snap(key, records[key])]);
      GetState(if r.error.Some? then Err(r.error.value) else Ok(Some(r.snaps[0])), r.cache)
  }

  /** What `get_multi(keys)` returns and `_config` afterwards. */
  datatype GetMultiState = GetMultiState(result: Result<seq<Snap>>, cache: ConfigCache)

  function GetMultiSpec(style: IdStyle, namespace: Option<string>, cache: ConfigCache,
                        records: map<Key, Props>, objects: Objects, keys: seq<Key>): GetMultiState
  {
    var r := ReadColumnsSpec(style, namespace, cache, records, objects, Found(records, keys));
    GetMultiState(if r.error.Some? then Err(r.error.value) else Ok(r.snaps), r.cache)
  }

  /** The batch, the blobs, the records, the store's next id and `_config`
      after a write of a batch, and the exception, if any. */
  datatype PutState = PutState(snaps: seq<Snap>, objects: Objects, records: map<Key, Props>, nextId: int,
                               cache: ConfigCache, error: Option<Error>)

  /** `_write_columns` followed by the parent's `put_multi`: the columns are
      written first, and the batch is committed only if that did not raise;
      the commit gives every key that is still partial an id from the store
      and sets it on the entity. */
  function PutMultiSpec(style: IdStyle, namespace: Option<string>, cache: ConfigCache,
                        records: map<Key, Props>, nextId: int, objects: Objects, snaps: seq<Snap>,
                        compress: Option<string>, level: Option<int>, cacheControl: string): PutState
  {
    var w := WriteColumnsSpec(style, namespace, cache, records, objects, snaps, compress, level, cacheControl);
    if w.error.Some? then PutState(w.snaps, w.objects, records, nextId, w.cache, w.error)
    else
      var c := Completed(w.snaps, nextId);
      PutState(c, w.objects, Commit(records, c), nextId + PartialCount(w.snaps), w.cache, None)
  }

  /** A write that raises commits nothing and takes no ids. One that does
      not commits every entity of the batch with its columns stripped, under
      a key that is not partial (of entities sharing a key the last one
      wins): complete keys are kept, and one id is taken per partial key. */
  lemma {:induction false} PutMultiCommits(style: IdStyle, namespace: Option<string>, cache: ConfigCache,
                                           records: map<Key, Props>, nextId: int, objects: Objects, snaps: seq<Snap>,
                                           compress: Option<string>, level: Option<int>, cacheControl: string)
    ensures var p := PutMultiSpec(style, namespace, cache, records, nextId, objects, snaps, compress, level, cacheControl);
            |p.snaps| == |snaps| &&
            (p.error.Some? ==> p.records == records && p.nextId == nextId) &&
            (p.error.None? ==>
               p.nextId == nextId + PartialCount(snaps) &&
               (forall i :: 0 <= i < |snaps| ==> !Partial(p.snaps[i].key) && p.snaps[i].key in p.records) &&
               (forall i :: 0 <= i < |snaps| && !Partial(snaps[i].key) ==> p.snaps[i].key == snaps[i].key) &&
               (forall i :: 0 <= i < |snaps| && (forall j :: i < j < |snaps| ==> p.snaps[j].key != p.snaps[i].key) ==>
                  p.records[p.snaps[i].key] == p.snaps[i].props) &&
               (forall k :: k in p.records && (forall i :: 0 <= i < |snaps| ==> p.snaps[i].key != k) ==>
                  k in records && p.records[k] == records[k]) &&
               (|snaps| > 0 ==> p.records[p.snaps[|snaps| - 1].key] == p.snaps[|snaps| - 1].props))
  {
    var w := WriteColumnsSpec(style, namespace, cache, records, objects, snaps, compress, level, cacheControl);
    var p := PutMultiSpec(style, namespace, cache, records, nextId, objects, snaps, compress, level, cacheControl);
    if p.error.None? {
      assert p.snaps == Completed(w.snaps, nextId) && p.records == Commit(records, p.snaps);
      assert p.nextId == nextId + PartialCount(w.snaps);
      CommitCompleted(records, w.snaps, snaps, nextId);
    }
  }

  /** The commit of a batch whose keys are those of `snaps`, after its
      partial keys were completed. */
  lemma CommitCompleted(records: map<Key, Props>, ws: seq<Snap>, snaps: seq<Snap>, nextId: int)
    requires |ws| == |snaps| && forall i :: 0 <= i < |ws| ==> ws[i].key == snaps[i].key
    ensures var c := Completed(ws, nextId);
            var r := Commit(records, c);
            PartialCount(ws) == PartialCount(snaps) &&
            (forall i :: 0 <= i < |snaps| ==> !Partial(c[i].key) && c[i].key in r) &&
            (forall i :: 0 <= i < |snaps| && !Partial(snaps[i].key) ==> c[i].key == snaps[i].key) &&
            (forall i :: 0 <= i < |snaps| && (forall j :: i < j < |snaps| ==> c[j].key != c[i].key) ==>
               r[c[i].key] == c[i].props) &&
            (forall k :: k in r && (forall i :: 0 <= i < |snaps| ==> c[i].key != k) ==>
               k in records && r[k] == records[k]) &&
            (|snaps| > 0 ==> r[c[|snaps| - 1].key] == c[|snaps| - 1].props)
  {
    PartialCountKeys(ws, snaps);
    CompletedKeys(ws, nextId);
    CommitExact(records, Completed(ws, nextId));
  }

  /** The tail of `put_multi`: the parent's put of the batch, reached only
      when writing the columns did not raise; it completes partial keys. */
  method CommitWritten(store: MetaStore, entities: seq<Entity>, err: Option<Error>)
    requires Distinct(entities)
    modifies store, entities
    ensures err.Some? ==> Snapshot(entities) == old(Snapshot(entities)) &&
                          store.records == old(store.records) && store.nextId == old(store.nextId)
    ensures err.None? ==> Snapshot(entities) == Completed(old(Snapshot(entities)), old(store.nextId)) &&
                          store.records == Commit(old(store.records), Snapshot(entities)) &&
                          store.nextId == old(store.nextId) + PartialCount(old(Snapshot(entities)))
  {
    if err.None? {
      store.PutMulti(entities);
    }
  }

  /** After a commit every key of the batch has a record, each entity that
      no later entity of the batch shares its key with has its attributes as
      the record (later entities win), and every other key keeps its record. */
  lemma {:induction false} CommitExact(records: map<Key, Props>, snaps: seq<Snap>)
    ensures forall i :: 0 <= i < |snaps| ==> snaps[i].key in Commit(records, snaps)
    ensures forall i :: 0 <= i < |snaps| && (forall j :: i < j < |snaps| ==> snaps[j].key != snaps[i].key) ==>
              Commit(records, snaps)[snaps[i].key] == snaps[i].props
    ensures forall k :: k in Commit(records, snaps) && (forall i :: 0 <= i < |snaps| ==> snaps[i].key != k) ==>
              k in records && Commit(records, snaps)[k] == records[k]
    ensures |snaps| > 0 ==> Commit(records, snaps)[snaps[|snaps| - 1].key] == snaps[|snaps| - 1].props
  {
    CommitLatest(records, snaps);
    CommitFrame(records, snaps);
  }

  /** Every key of the batch gets a record, and no other record changes. */
  lemma {:induction false} CommitFrame(records: map<Key, Props>, snaps: seq<Snap>)
    ensures forall i :: 0 <= i < |snaps| ==> snaps[i].key in Commit(records, snaps)
    ensures forall k :: k in Commit(records, snaps) && (forall i :: 0 <= i < |snaps| ==> snaps[i].key != k) ==>
              k in records && Commit(records, snaps)[k] == records[k]
  {
    if |snaps| > 0 {
      var init := snaps[..|snaps| - 1];
      CommitFrame(records, init);
      assert forall i :: 0 <= i < |init| ==> init[i] == snaps[i];
    }
  }

  /** The record of a key is the attributes of the last entity of the batch with that key. */
  lemma CommitLatest(records: map<Key, Props>, snaps: seq<Snap>)
    ensures forall i :: 0 <= i < |snaps| && (forall j :: i < j < |snaps| ==> snaps[j].key != snaps[i].key) ==>
              snaps[i].key in Commit(records, snaps) && Commit(records, snaps)[snaps[i].key] == snaps[i].props
  {
    forall i | 0 <= i < |snaps| && (forall j :: i < j < |snaps| ==> snaps[j].key != snaps[i].key)
      ensures snaps[i].key in Commit(records, snaps) && Commit(records, snaps)[snaps[i].key] == snaps[i].props
    {
      CommitAt(records, snaps, i);
    }
  }

  lemma {:induction false} CommitAt(records: map<Key, Props>, snaps: seq<Snap>, i: nat)
    requires i < |snaps| && forall j :: i < j < |snaps| ==> snaps[j].key != snaps[i].key
    ensures snaps[i].key in Commit(records, snaps) && Commit(records, snaps)[snaps[i].key] == snaps[i].props
  {
    var n := |snaps| - 1;
    if i < n {
      var init := snaps[..n];
      assert init[i] == snaps[i];
      assert forall j :: i < j < |init| ==> init[j] == snaps[j];
      CommitAt(records, init, i);
      assert snaps[n].key != snaps[i].key;
    }
  }

  /** `put_multi([entity])` followed by `get(entity.key)` on the spec level,
      for an entity whose key is not partial: the get returns the entity as
      it was put. It needs independent columns, read paths that do not raise
      and no blob already stored where a column that is not offloaded would
      be looked up. */
  lemma PutOneThenGet(style: IdStyle, namespace: Option<string>, cache: ConfigCache, records: map<Key, Props>,
                      nextId: int, objects: Objects, s: Snap, compress: Option<string>, level: Option<int>, cacheControl: string)
    requires ConfigAccess(cache, records, namespace).result.Ok?
    requires var cols := ColumnsOf(ConfigAccess(cache, records, namespace).result.value);
             Independent(cols) && NoStaleBlobs(style, cols, s, objects)
    requires !Partial(s.key)
    ensures var p := PutMultiSpec(style, namespace, cache, records, nextId, objects, [s], compress, level, cacheControl);
            p.error.None? && GetSpec(style, namespace, p.cache, p.records, p.objects, s.key).result == Ok(Some(s))
  {
    var access := ConfigAccess(cache, records, namespace);
    var cols := ColumnsOf(access.result.value);
    WriteThenRead(style, cols, s, objects, compress, level, cacheControl);
    WriteOneSnaps(style, cols, s, objects, compress, level, cacheControl);
    var w := WriteSpec(style, cols, [s], objects, compress, level, cacheControl);
    var stripped := w.snaps[0];
    var p := PutMultiSpec(style, namespace, cache, records, nextId, objects, [s], compress, level, cacheControl);
    NoPartialCompleted([stripped], nextId);
    assert p.records == Commit(records, [stripped]);
    CommitOne(records, stripped);
    AccessCaches(cache, records, p.records, namespace);
    assert ReadColumnsSpec(style, namespace, p.cache, p.records, p.objects, [stripped]) ==
           ReadState([s], p.cache, None);
  }
}
