# DatastoreFlex column offloading, modelled in Dafny

DatastoreFlex is a Google Cloud Datastore client that moves configured
entity attributes ("columns") out of the metadata store into a blob store.
On `put`/`put_multi` it builds a blob path for every entity and column from
the entity's path-element attributes and its key's id or name. It uploads
the column's value to the column's bucket and pops the attribute before
committing the entity. On `get`/`get_multi` it fetches the blobs at the
read-mode paths and merges what it finds back into the entities. The
column configuration is one record per namespace, read once and then kept
in `_config`.

Two client variants are modelled:

- `Flex` models `src/datastoreflex/client.py`, the current client. Before
  any path is built, it allocates ids for keys that have none. It appends
  `str(key.id_or_name)` to every path.
- `LegacyFlex` models `datastoreflex/client.py`, the historical client.
  It has no id allocation and appends `key.id_or_name` as it is.

The two variants share the value-level specification. The id style
(`Paths.IdStyle`: `Stringified` or `Raw`) is the only difference inside
it.

Modules:

- `Values`: keys, attribute values, the `Entity` class and snapshots of a
  batch.
- `Text`: "/".join and split, and decimal `str(int)`.
- `Paths`: `_get_filespaths`, as the function `BatchPaths` and the method
  `GetFilesPaths` proved against it.
- `Stores`: the blob store and the metadata store, as classes seen through
  their interfaces.
- `Config`: `config`, `_read_config` and `add_config`, on values.
- `Columns`: the column loops of `_read_columns` and `_write_columns`,
  both as spec functions and as in-place methods over the entity objects.
- `Allocation`: `_allocate_ids`.
- `Client`: the client operations on values, shared by both variants.
- `RoundTrip`: what a write strips and uploads is what a read merges back.
- `Flex` and `LegacyFlex`: the two `DatastoreFlex` classes. Each holds
  `_config` as a field, and each method is proved against the spec
  functions.

Python's `"/".join` raises `TypeError` on any item that is not a string.
The model keeps this as `Error.TypeError`, which propagates out of `get`,
`put` and the other operations exactly as the exception does.

Neither client passes path-element values through `str()`
(src/datastoreflex/client.py:223, datastoreflex/client.py:217), so a
present non-string element makes the join raise TypeError (see
`Paths.NonTextElementRaises`).

Keys the store completes get their ids from a counter in the model
(`Stores.MetaStore.nextId`). This covers both `allocate_ids` and the
parent `put_multi`, which completes keys that are still partial and sets
the new key on the entity.

## Model

| member | source | states |
|---|---|---|
| Paths.Elements | src/datastoreflex/client.py:219-229 | The list handed to the join is one item per path element, in order, with the "non_existent" sentinel for an absent attribute. The key's id or name comes last. |
| Paths.JoinValues | src/datastoreflex/client.py:230 | Defines `"/".join(elements)`: the join of the items when all of them are strings, TypeError otherwise. Its properties are `Paths.NonTextElementRaises` and `Paths.PathSegments`. |
| Paths.EntityPath | src/datastoreflex/client.py:219-230 | Defines one entity's path. It is None in write mode when an element is absent, since the join is then not evaluated. Otherwise it is the join of `Elements`, or the join's TypeError. Its properties are `Paths.PathPresence`, `Paths.PathEndsWithId` and `Paths.StringifiedPathOk`. |
| Paths.BatchPaths | src/datastoreflex/client.py:209-231 | Defines the list `_get_filespaths` returns, one path per entity in batch order, or the first exception. Its properties are in `Paths.BatchPathsAligned`, and `Paths.GetFilesPaths` is the loop proved equal to it. |
| Paths.BatchPathsOk | src/datastoreflex/client.py:209-231 | A batch's path list is built exactly when no entity's path raises. |
| Paths.BatchPathsValues | src/datastoreflex/client.py:217-231 | A path list that is built holds each entity's own path at that entity's position. |
| Paths.BatchPathsAligned | src/datastoreflex/client.py:209-231 | Both of the above together: raising iff some entity raises, and positional alignment otherwise. |
| Paths.BatchPathsErrSticks | src/datastoreflex/client.py:218-230 | Once one entity's join raises, the whole call raises that exception, whatever entities follow. |
| Paths.PathElements | src/datastoreflex/client.py:219-229 | The inner loop builds exactly `Elements`, and its flag is set exactly when some path element is absent. |
| Paths.GetFilesPaths | src/datastoreflex/client.py:209-231 | The loop returns exactly the batch path list `BatchPaths`, or the join's exception. |
| Paths.PathPresence | src/datastoreflex/client.py:230 | Read mode never yields None. Write mode yields None exactly when some path element is absent. |
| Paths.ReadPathsPresent | src/datastoreflex/client.py:78 | A read-mode path list contains no None. |
| Paths.PathSegments | src/datastoreflex/client.py:219-230 | Splitting a path on "/" gives back the element values in configured order (sentinel for an absent one), followed by the id or name, when no value contains "/". |
| Paths.PathEndsWithId | src/datastoreflex/client.py:229-230 | Under `str(id_or_name)`, the part of a path after its last "/" is the decimal text of the key's id, whatever the path-element values are. |
| Paths.DistinctIdsDistinctPaths | src/datastoreflex/client.py:229-230 | Under `str(id_or_name)`, entities with different numeric ids never share a path for the same column, even when their path-element values contain "/". |
| Paths.NonTextElementRaises | src/datastoreflex/client.py:223 | A present path element whose value is not a string makes the join raise TypeError whenever the join runs. |
| Paths.StringifiedPathOk | src/datastoreflex/client.py:229-230 | With `str(id_or_name)`, string-valued elements always yield a path, whatever the key. |
| Paths.RawIdRaises | datastoreflex/client.py:223-224 | Without `str()`, a numeric id, or a key with neither id nor name, makes the join raise TypeError whenever it runs. |
| Text.SplitJoin | src/datastoreflex/client.py:230 | Splitting a "/"-join of separator-free parts gives the parts back. |
| Text.AfterJoin | src/datastoreflex/client.py:230 | In a "/"-join, the text after the last "/" is the last part, when that part has no "/". |
| Text.IntToStringInjective | src/datastoreflex/client.py:229 | `str()` of different integers gives different strings. |
| Stores.FetchAll | src/datastoreflex/client.py:79 | A batched fetch gives one answer per path, in path order. |
| Stores.ApplyPuts | src/datastoreflex/client.py:116 | Defines the blobs after `CloudFiles(bucket).puts(files)`: each descriptor is stored under (bucket, path), in order, so later uploads win. `Stores.ApplyPutsOtherBucket` and `Stores.BlobStore.Puts` build on it. |
| Stores.ApplyPutsOtherBucket | src/datastoreflex/client.py:116 | An upload to one bucket leaves every other bucket unchanged. |
| Stores.BlobStore.Get | src/datastoreflex/client.py:79 | `CloudFiles(bucket).get(paths)` returns the stored content or an error for each path, aligned with the paths. |
| Stores.BlobStore.Puts | src/datastoreflex/client.py:116 | `CloudFiles(bucket).puts(files)` stores each descriptor at its path, in order, with later uploads winning. |
| Stores.FoundOne | src/datastoreflex/client.py:128-140 | A one-key lookup finds the record if one exists and nothing otherwise. |
| Stores.CommitOne | src/datastoreflex/client.py:59 | Committing one entity sets its key's record to its attributes. |
| Stores.Found | src/datastoreflex/client.py:155-163 | Defines what the parent `get_multi(keys)` finds: the records of the keys that have one, in key order. Nothing here depends on that order, since paths are computed per entity; it is a modelling choice. `Stores.FoundOne` and `Stores.MetaStore.GetMulti` build on it. |
| Stores.Commit | src/datastoreflex/client.py:195 | Defines the records after the parent put of a batch of complete keys. The record of each key is set in batch order, so later entities win, as `Client.CommitExact` proves. |
| Stores.Completed | src/datastoreflex/client.py:195 | Defines the batch after the parent put has completed its partial keys. The k-th partial key gets the counter's next id plus k. Its properties are in `Stores.CompletedKeys`. |
| Stores.AllocatedKeys | src/datastoreflex/client.py:204 | `allocate_ids(base, n)` yields n keys of the base's namespace and kind, with consecutive fresh ids. |
| Stores.MetaStore.GetMulti | src/datastoreflex/client.py:155-163 | The parent `get_multi` returns a fresh, pairwise distinct entity for every key with a record. Key order is a modelling choice, not a promise the parent makes; the client never relies on it. |
| Stores.CompletedKeys | src/datastoreflex/client.py:195 | After the parent put no key of the batch is partial. Complete keys are kept. Each partial key keeps its namespace and kind and gets its own id in [next, next + number of partial keys). |
| Stores.MetaStore.PutMulti | src/datastoreflex/client.py:195 | The parent `put_multi` gives the k-th partial key the counter's next id plus k and sets it on the entity. It makes each entity's attributes the record of its key, with later entities winning, and advances the counter by the number of partial keys. |
| Stores.MetaStore.AllocateIds | src/datastoreflex/client.py:204 | A base key that is not partial raises ValueError and changes nothing. Otherwise the store hands out the next n ids and advances its counter by n. The records are unchanged either way. |
| Config.ConfigKey | src/datastoreflex/client.py:52-56 | The configuration key has kind f"{namespace}_config", name "column" and the client's namespace. |
| Config.Decode | src/datastoreflex/client.py:71 | Defines `json.loads(config.get("value", "{}"))`. A missing "value" gives no columns, the stored configuration gives itself back, and anything else is `DecodeError`. |
| Config.LoadConfig | src/datastoreflex/client.py:63-73 | Defines `_read_config`: with no record (the IndexError branch) no columns; otherwise the decoded record or its decode error. Its properties are `Config.NoRecordNoColumns` and `Config.AddThenLoad`. |
| Config.ConfigAccess | src/datastoreflex/client.py:44-49 | Defines the `config` property. A cached dictionary is returned as it is. Otherwise `_config` becomes {} and is filled by `_read_config`, whose exception escapes. Its properties are `Config.AccessCaches` and `Config.DecodeErrorPoisons`. |
| Config.AccessCaches | src/datastoreflex/client.py:45-49 | After the first use `_config` is set. Every later use returns it without reading the store, whatever the store holds by then. |
| Config.AddThenLoad | src/datastoreflex/client.py:51-73 | A client with an empty `_config` sees, under "column", the configuration `add_config` stored. |
| Config.NoRecordNoColumns | src/datastoreflex/client.py:69-73 | Without a configuration record (the IndexError branch), no column is configured. |
| Config.DecodeErrorPoisons | src/datastoreflex/client.py:45-49 | A record that does not decode raises on first use and leaves `_config` as {}. Every later use then succeeds with no columns. |
| Config.ConfigKeysPerNamespace | src/datastoreflex/client.py:52-56 | Clients of different namespaces read different configuration records. |
| Columns.CacheControl | src/datastoreflex/client.py:107-110 | The cache-control header is CACHE_CONTROL when set, else "public; max-age=3600". |
| Columns.MergedSnaps | src/datastoreflex/client.py:80-83 | Each entity gains the fetched content under the column name when its fetch succeeded, and is unchanged otherwise. |
| Columns.ReadColumn | src/datastoreflex/client.py:77-83 | Defines one column of `_read_columns`: read-mode paths, one batched fetch, and a merge by position, or the path exception. Its properties are in `Columns.ReadColumnExact`. |
| Columns.ReadSpec | src/datastoreflex/client.py:75-83 | Defines the column loop of `_read_columns`: the columns in configuration order, stopping at the first exception. `Columns.ReadSpecFrame` and `Columns.FetchColumns` build on it. |
| Columns.ReadColumnExact | src/datastoreflex/client.py:77-83 | One column of a read raises iff some entity's read path raises. Otherwise exactly the entities whose fetch found content get the column, and nothing else changes. |
| Columns.ReadSpecFrame | src/datastoreflex/client.py:75-83 | Reading keeps the batch aligned and the keys fixed, and touches no attribute that is not a configured column. |
| Columns.MergeColumn | src/datastoreflex/client.py:80-83 | The merge loop leaves the batch exactly as `MergedSnaps` says. |
| Columns.StrippedSnaps | src/datastoreflex/client.py:98-115 | An entity loses the column exactly when it has a write path and the attribute. |
| Columns.OffloadedPositions | src/datastoreflex/client.py:98-114 | Lists the offloaded entities, in increasing batch order, with none missing. |
| Columns.Descriptors | src/datastoreflex/client.py:97-112 | Defines `upload_files` for one column. Its properties are in `Columns.DescriptorsExact`. |
| Columns.WriteColumn | src/datastoreflex/client.py:94-116 | Defines one column of `_write_columns`: write-mode paths, the strip, and one batched upload, or the path exception. Its properties are in `Columns.StripExact`. |
| Columns.WriteSpec | src/datastoreflex/client.py:93-116 | Defines the column loop of `_write_columns`: the columns in configuration order, stopping at the first exception. `Columns.WriteSpecFrame` and `Columns.OffloadColumns` build on it. |
| Columns.DescriptorsExact | src/datastoreflex/client.py:97-112 | `upload_files` holds one descriptor per offloaded entity, in batch order. Each carries the entity's value, its path, the compression settings and the cache-control header. |
| Columns.StripExact | src/datastoreflex/client.py:93-115 | One column of a write raises iff some entity's write path raises. Otherwise exactly the entities with a path and the attribute lose it, and nothing else changes. |
| Columns.MissingElementKeepsColumn | src/datastoreflex/client.py:98-100 | An entity that lacks a path element keeps the column inline. |
| Columns.WriteSpecFrame | src/datastoreflex/client.py:85-116 | Writing keeps the batch aligned and the keys fixed, and removes no attribute that is not a configured column. |
| Columns.StripColumn | src/datastoreflex/client.py:97-115 | The strip loop returns exactly the upload list `Descriptors` and leaves exactly the batch `StrippedSnaps`. |
| Columns.FetchColumn | src/datastoreflex/client.py:78-83 | One turn of the read loop does exactly one `ReadColumn` step. The batch is unchanged when the path join raises. |
| Columns.OffloadColumn | src/datastoreflex/client.py:94-116 | One turn of the write loop does exactly one `WriteColumn` step. The batch and the blobs are unchanged when the path join raises. |
| Columns.FetchColumns | src/datastoreflex/client.py:77-83 | The column loop of `_read_columns` runs the columns in configuration order and stops at the first exception. The outcome is `ReadSpec`. |
| Columns.OffloadColumns | src/datastoreflex/client.py:93-116 | The column loop of `_write_columns` runs the columns in configuration order and stops at the first exception. The outcome is `WriteSpec`. |
| Allocation.Unnamed | src/datastoreflex/client.py:200 | Lists exactly the positions whose key has no id, in increasing order. |
| Allocation.Allocated | src/datastoreflex/client.py:197-206 | Defines the batch's keys after the rekeying of `_allocate_ids`. Its properties are `Allocation.AllocatedExact` and `Allocation.AllocatedComplete`. |
| Allocation.AllocateSpec | src/datastoreflex/client.py:197-206 | Defines `_allocate_ids` as a whole: the rekeyed batch and the advanced counter, or the ValueError of `allocate_ids` with nothing changed. The attributes are always kept. Its properties are `Allocation.AllocateRaises` and `Allocation.CompleteBatchUnchanged`. |
| Allocation.ReassignExact | src/datastoreflex/client.py:205-206 | The zip assigns the k-th new key to the k-th listed position and keeps every other key. |
| Allocation.AllocatedExact | src/datastoreflex/client.py:197-206 | Keys with an id are kept. The k-th key without one becomes the store key next+k, derived from the first key without an id. |
| Allocation.AllocatedComplete | src/datastoreflex/client.py:197-206 | Afterwards every key has an id. The allocated ids are pairwise distinct and lie in [next, next + number allocated). |
| Allocation.AllocatedFromFirstBase | src/datastoreflex/client.py:202-204 | Every allocated key takes the namespace and kind of the first key without an id, and has no name, whatever its own kind was. |
| Allocation.AllocateRaises | src/datastoreflex/client.py:200-206 | `_allocate_ids` raises ValueError exactly when the first key without an id has a name. Otherwise every key has an id afterwards. |
| Allocation.AllocateOne | src/datastoreflex/client.py:200-206 | One entity whose key has an id, or neither id nor name, is allocated without error, keeps its attributes and has an id afterwards. |
| Allocation.CompleteBatchUnchanged | src/datastoreflex/client.py:201 | A batch whose keys all have ids is left alone and allocates nothing. |
| Allocation.UnnamedPositions | src/datastoreflex/client.py:200 | The comprehension returns exactly `Unnamed` of the batch's keys. |
| Allocation.AssignKeys | src/datastoreflex/client.py:205-206 | The assignment loop rekeys the batch exactly as `Reassign` says and leaves the attributes alone. |
| Client.ReadColumnsSpec | src/datastoreflex/client.py:75-83 | `_read_columns` keeps the batch aligned and the keys fixed, and leaves `_config` as the config access does. |
| Client.WriteColumnsSpec | src/datastoreflex/client.py:92-116 | The column part of `_write_columns` keeps the batch aligned and the keys fixed, and leaves `_config` as the config access does. |
| Client.GetSpec | src/datastoreflex/client.py:118-143 | Defines `get(key)`: None without a record (the configuration is not consulted), otherwise the record with its columns read back, or the exception. `Client.PutOneThenGet` is about it. |
| Client.GetMultiSpec | src/datastoreflex/client.py:145-165 | Defines `get_multi(keys)`: the found records with their columns read back, or the exception. |
| Client.PutMultiSpec | datastoreflex/client.py:187-200 | Defines `_write_columns` without allocation, followed by the parent `put_multi`. The commit runs only when the write did not raise, and it completes partial keys. This is the legacy `put_multi`, and the part of the current one after `_allocate_ids`. Its properties are in `Client.PutMultiCommits`. |
| Client.PutMultiCommits | src/datastoreflex/client.py:190-195 | A write that raises commits nothing and takes no id. One that does not commits every entity under a key that is not partial, keeps complete keys and every other record, and takes one id per partial key. Each entity without a later one under the same key is stored with its stripped attributes. |
| Client.CommitWritten | src/datastoreflex/client.py:195 | The parent put runs only when writing the columns did not raise. It then completes partial keys and commits the batch; otherwise nothing changes. |
| Client.CommitExact | src/datastoreflex/client.py:195 | The parent put gives every key of the batch a record and leaves other records alone. Each entity that no later entity shares its key with has its own attributes as the record, so of entities sharing a key the last one wins. |
| Client.PutOneThenGet | datastoreflex/client.py:123-200 | Assume a key that is not partial, independent columns, paths that do not raise and no stale blob. Then `PutMultiSpec` of `[e]` raises nothing, and a following `get(e.key)` returns `e` exactly. With raw ids this is the whole legacy `put_multi`. With `str()` ids it covers only the current client's steps after `_allocate_ids`; the whole current `put` is `Flex.PutThenGet`. |
| Flex.PutThenGet | src/datastoreflex/client.py:85-206 | Putting an entity whose key has an id, or neither id nor name, raises nothing. It gives the key an id, keeps the attributes, and a `get` of that key returns the entity exactly as it was put. |
| Flex.AllocWriteSpec | src/datastoreflex/client.py:85-116 | Defines the current `_write_columns`: `_allocate_ids` first, whose ValueError leaves everything unchanged and reads no configuration, then the column loop on the rekeyed batch. |
| Flex.AllocPutSpec | src/datastoreflex/client.py:182-206 | Defines the current `put_multi`: allocation, then `PutMultiSpec` on the rekeyed batch. `Flex.PutThenGet` and `Flex.NamedKeyPutRaises` are about it. |
| Flex.NamedKeyPutRaises | src/datastoreflex/client.py:167-206 | When the first entity of a batch without an id has a name, `put`/`put_multi` raise ValueError in `_allocate_ids`. Nothing is uploaded or committed, no id is taken and `_config` is not read. |
| Flex.DatastoreFlex.constructor | src/datastoreflex/client.py:18-42 | A new client has an empty `_config` (None). |
| Flex.DatastoreFlex.Config | src/datastoreflex/client.py:44-49 | The `config` property returns and caches exactly what `ConfigAccess` says. |
| Flex.DatastoreFlex.AddConfig | src/datastoreflex/client.py:51-61 | Stores the configuration record under the namespace's configuration key and resets `_config` to None. |
| Flex.DatastoreFlex.ReadConfig | src/datastoreflex/client.py:63-73 | Sets "column" to the decoded configuration, or to {} without a record. A decode error leaves `_config` unchanged. |
| Flex.DatastoreFlex.ReadColumns | src/datastoreflex/client.py:75-83 | Leaves the batch, `_config` and the exception exactly as `ReadColumnsSpec` says. |
| Flex.DatastoreFlex.AllocateIds | src/datastoreflex/client.py:197-206 | Rekeys the batch and moves the id counter exactly as `AllocateSpec` says (by the number of keys without an id), or raises its ValueError and changes nothing. |
| Flex.DatastoreFlex.RenameUnnamed | src/datastoreflex/client.py:202-206 | The allocating branch: keys come from the first unnamed key and the counter moves by their number, unless `allocate_ids` raises. |
| Flex.DatastoreFlex.WriteColumns | src/datastoreflex/client.py:85-116 | Allocation first, which may raise before anything else. Then the column writes of `WriteColumnsSpec` on the rekeyed batch, exactly as `AllocWriteSpec`. |
| Flex.DatastoreFlex.WriteAllocated | src/datastoreflex/client.py:92-116 | The column part of `_write_columns`, exactly as `WriteColumnsSpec`. |
| Flex.DatastoreFlex.Get | src/datastoreflex/client.py:118-143 | Returns None without a record. Otherwise it returns the record with its columns read back, or the exception, exactly as `GetSpec`. |
| Flex.DatastoreFlex.GetMulti | src/datastoreflex/client.py:145-165 | Returns the found records with their columns read back, or the exception, exactly as `GetMultiSpec`. |
| Flex.DatastoreFlex.Put | src/datastoreflex/client.py:167-180 | Allocation, then the column writes, then the commit, each only if the one before did not raise, exactly as `AllocPutSpec` of the one-entity batch. This covers the entity, the blobs, the records, the id counter and `_config`. |
| Flex.DatastoreFlex.PutMulti | src/datastoreflex/client.py:182-195 | The same for a batch. |
| LegacyFlex.DatastoreFlex.constructor | datastoreflex/client.py:19-42 | A new client has an empty `_config` (None). |
| LegacyFlex.DatastoreFlex.Config | datastoreflex/client.py:44-49 | The `config` property returns and caches exactly what `ConfigAccess` says. |
| LegacyFlex.DatastoreFlex.AddConfig | datastoreflex/client.py:51-63 | Stores the configuration record and resets `_config` to None. |
| LegacyFlex.DatastoreFlex.ReadConfig | datastoreflex/client.py:65-77 | Sets "column" to the decoded configuration, or to {} without a record. A decode error leaves `_config` unchanged. |
| LegacyFlex.DatastoreFlex.ReadColumns | datastoreflex/client.py:79-88 | Exactly `ReadColumnsSpec` with raw ids. |
| LegacyFlex.DatastoreFlex.WriteColumns | datastoreflex/client.py:90-121 | Exactly `WriteColumnsSpec` with raw ids, without any id allocation. |
| LegacyFlex.DatastoreFlex.Get | datastoreflex/client.py:123-148 | Exactly `GetSpec` with raw ids. |
| LegacyFlex.DatastoreFlex.GetMulti | datastoreflex/client.py:150-170 | Exactly `GetMultiSpec` with raw ids. |
| LegacyFlex.DatastoreFlex.Put | datastoreflex/client.py:172-185 | Exactly `PutMultiSpec` of the one-entity batch with raw ids. Without `_allocate_ids`, only the parent put completes a partial key. |
| LegacyFlex.DatastoreFlex.PutMulti | datastoreflex/client.py:187-200 | Exactly `PutMultiSpec` with raw ids, for the batch, the blobs, the records, the id counter and `_config`. |
| LegacyFlex.AllMissingWritesNothing | datastoreflex/client.py:96-121 | An entity that lacks a path element of every column is written unchanged, and the write raises nothing. |
| LegacyFlex.PartialKeyPut | datastoreflex/client.py:187-200 | A `put` of an entity with a partial key, when no column gives it a path, raises nothing. The parent put commits it under a fresh id, sets that key on the entity, and takes one id. |
| LegacyFlex.NumericIdGetRaises | datastoreflex/client.py:223-224 | A `get` of a stored entity with a numeric id raises TypeError as soon as one column is configured. |
| LegacyFlex.NumericIdPutRaises | datastoreflex/client.py:223-224 | A `put` of an entity with a numeric id, whose first column's path elements are all present, raises TypeError. Nothing is committed, no id is taken and the entity keeps its attributes. |
| RoundTrip.WriteFromRead | src/datastoreflex/client.py:230 | When the read path does not raise, neither does the write path, and a write path that exists equals the read path. |
| RoundTrip.ColumnEditKeepsPaths | src/datastoreflex/client.py:219-230 | Popping or setting configured columns changes no column's path, provided no column is a path element. |
| RoundTrip.WriteOtherBucket | src/datastoreflex/client.py:116 | A write never touches a bucket that no column names. |
| RoundTrip.WriteOneSnaps | src/datastoreflex/client.py:93-115 | A one-entity write strips exactly the offloaded columns and raises nothing. |
| RoundTrip.WriteOneBlobs | src/datastoreflex/client.py:93-116 | After a one-entity write, each offloaded value is stored at its column's read path, and the blob at a non-offloaded column's read path is as it was. |
| RoundTrip.ReadOne | src/datastoreflex/client.py:77-83 | A one-entity read sets each column whose fetch finds content and nothing else. |
| RoundTrip.WriteThenRead | src/datastoreflex/client.py:75-116 | A write followed by a read with the same columns gives the entity back exactly, when no stale blob sits at a non-offloaded column's path. |
| RoundTrip.StaleBlobReturns | src/datastoreflex/client.py:81-83 | Writes never delete blobs. A column that is not offloaded but has a blob at its read path comes back on reading with the blob's content. |

## Left out

- `Values.Distinct`: the write and read methods require the entities of a batch to be distinct objects. A batch holding the same entity twice (aliasing) is not modelled.
- I/O, the network and the two cloud clients are modelled only at their interface: `Stores.BlobStore` and `Stores.MetaStore`. Their failures (network errors, quota, permissions) are not modelled, and neither are the `missing`, `deferred`, `transaction`, `eventual`, `retry` and `timeout` parameters that are forwarded to them.
- JSON: `json.dumps`/`json.loads` of the configuration are not modelled as text. The attribute value `Json(cfg)` stands for the text `add_config` writes. A missing "value" decodes to no columns, and any other value counts as undecodable (`DecodeError`).
- Compression and the encoding of content to bytes are not modelled. An uploaded descriptor carries the attribute value, the codec name and the level, and a fetch returns the value.
- `getenv("CACHE_CONTROL", ...)` is a parameter (`cacheControlEnv`) rather than a read of the process environment.
- A configuration entry without "bucket_path" or "path_elements" raises KeyError in the source. The model's `Column` always has both.
- Ancestor paths in keys are not modelled. A key is namespace, kind, optional id and optional name.
- The ids the Datastore service chooses are modelled as a counter (`Stores.MetaStore.nextId`). The model promises fresh, distinct ids handed out in batch order, not the service's actual values.
- `Paths.NonTextElementRaises`: an attribute holding `Json(cfg)` counts as non-text in the join, although the configuration record's "value" is a str in the source. Only the configuration record carries such a value, and it is written through the parent `put_multi`, which builds no path. An entity read back from that record and then used as a path source would join the JSON text in the source, but raises TypeError in the model.
- Stores.ApplyPutsOtherBucket and RoundTrip.WriteOtherBucket: buckets are plain strings, and `Stores.Objects` is keyed by (bucket, path). `gs://b` and `gs://b/x` are different buckets in the model, though they name overlapping storage, so these two lemmas speak only of buckets that do not overlap in that way.
- Floats, nested entities and lists are not separate attribute values. Any attribute that is not a string behaves like `Int`, `Bool`, `Bytes` or `Null` in the join: it raises TypeError.
- Concurrency between clients sharing a store is not modelled.
- `Flex.DatastoreFlex.Put` and `LegacyFlex.DatastoreFlex.Put` call `PutMulti` on the one-entity batch. The source spells out the same two calls (write the columns of `[entity]`, then the parent `put_multi([entity])`).
- `Flex.PutThenGet`, `Client.PutOneThenGet` and `RoundTrip.WriteThenRead` are stated for one entity, not for batches.

## Findings

| source | as written | input that shows it | evidently intended | confidence | as-written member | corrected member |
|---|---|---|---|---|---|---|
| datastoreflex/client.py:223 | The key's `id_or_name` is appended to the path elements as it is, and `"/".join` raises TypeError on an integer. | An entity whose key has numeric id 5, under one configured column whose path elements it has: `put` and `get` raise TypeError. | Append `str(entity.key.id_or_name)`, as src/datastoreflex/client.py:229 does, so numeric ids give paths. | not executed | LegacyFlex.NumericIdPutRaises | Flex.PutThenGet |
