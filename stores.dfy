/** The two external collaborators, modelled at their interface: the blob
    store reached through the blob client (one batched get and one batched
    puts per column) and the metadata store reached through the datastore
    client (get_multi, put_multi, allocate_ids). */
module Stores {
  import opened Values

  /** One entry of `upload_files`: content, path and upload options. */
  datatype FileDescriptor = FileDescriptor(
    content: Value,
    path: string,
    compress: Option<string>,
    compressionLevel: Option<int>,
    cacheControl: string)

  /** The per-item answer of a batched get: the content, or an error
      (not found or any other failure of that item). */
  datatype FetchResult = Fetched(content: Value) | FetchError

  /** Stored blobs by (bucket path, path inside it). Compression is the
      identity here, so the stored descriptor carries the content as written. */
  type Objects = map<(string, string), FileDescriptor>

  function Fetch(objects: Objects, bucket: string, path: string): FetchResult {
    if (bucket, path) in objects then Fetched(objects[(bucket, path)].content) else FetchError
  }

  function FetchAll(objects: Objects, bucket: string, paths: seq<string>): (r: seq<FetchResult>)
    ensures |r| == |paths|
    ensures forall i :: 0 <= i < |paths| ==> r[i] == Fetch(objects, bucket, paths[i])
  {
    seq(|paths|, i requires 0 <= i < |paths| => Fetch(objects, bucket, paths[i]))
  }

  /** The blobs after uploading `files` to `bucket`, in order: a later file
      with the same path replaces an earlier one. */
  function ApplyPuts(objects: Objects, bucket: string, files: seq<FileDescriptor>): Objects {
    if |files| == 0 then objects
    else
      var last := files[|files| - 1];
      ApplyPuts(objects, bucket, files[..|files| - 1])[(bucket, last.path) := last]
  }

  /** An upload to one bucket leaves every other bucket as it was. */
  lemma {:induction false} ApplyPutsOtherBucket(objects: Objects, bucket: string, files: seq<FileDescriptor>, other: string, path: string)
    requires other != bucket
    ensures (other, path) in ApplyPuts(objects, bucket, files) <==> (other, path) in objects
    ensures (other, path) in objects ==> ApplyPuts(objects, bucket, files)[(other, path)] == objects[(other, path)]
  {
    if |files| > 0 {
      ApplyPutsOtherBucket(objects, bucket, files[..|files| - 1], other, path);
    }
  }

  /** The blob store seen through the blob client. */
  class BlobStore {
    var objects: Objects

    constructor (objects: Objects)
      ensures this.objects == objects
    {
      this.objects := objects;
    }

    /** `CloudFiles(bucket).get(paths)`: one answer per path, in order. */
    method Get(bucket: string, paths: seq<string>) returns (results: seq<FetchResult>)
      ensures |results| == |paths|
      ensures forall i :: 0 <= i < |paths| ==> results[i] == Fetch(objects, bucket, paths[i])
    {
      results := FetchAll(objects, bucket, paths);
    }

    /** `CloudFiles(bucket).puts(files)`. */
    method Puts(bucket: string, files: seq<FileDescriptor>)
      modifies this
      ensures objects == ApplyPuts(old(objects), bucket, files)
    {
      var i := 0;
      while i < |files|
        invariant 0 <= i <= |files|
        invariant objects == ApplyPuts(old(objects), bucket, files[..i])
      {
        assert files[..i + 1][..i] == files[..i];
        objects := objects[(bucket, files[i].path) := files[i]];
        i := i + 1;
      }
      assert files[..i] == files;
    }
  }

  /** The records `get_multi(keys)` finds, in the order of the keys; keys
      without a record are left out. */
  function Found(records: map<Key, Props>, keys: seq<Key>): seq<Snap> {
    if |keys| == 0 then []
    else
      var k := keys[|keys| - 1];
      Found(records, keys[..|keys| - 1]) + (if k in records then [Snap(k, records[k])] else [])
  }

  /** The records after `put_multi` of a batch: later entities win. */
  function Commit(records: map<Key, Props>, snaps: seq<Snap>): map<Key, Props> {
    if |snaps| == 0 then records
    else
      var s := snaps[|snaps| - 1];
      Commit(records, snaps[..|snaps| - 1])[s.key := s.props]
  }

  lemma FoundOne(records: map<Key, Props>, key: Key)
    ensures Found(records, [key]) == if key in records then [Snap(key, records[key])] else []
  {
    assert [key][..0] == [];
  }

  lemma CommitOne(records: map<Key, Props>, s: Snap)
    ensures Commit(records, [s]) == records[s.key := s.props]
  {
    assert [s][..0] == [];
  }

  /** A complete key the store allocates from a partial base key. */
  function AllocatedKey(base: Key, id: int): Key {
    Key(base.namespace, base.kind, Some(id), None)
  }

  /** The keys `allocate_ids(base, n)` returns when the next id is `next`. */
  function AllocatedKeys(base: Key, next: int, n: nat): (r: seq<Key>)
    ensures |r| == n && forall k :: 0 <= k < n ==> r[k] == AllocatedKey(base, next + k)
  {
    seq(n, k requires 0 <= k < n => AllocatedKey(base, next + k))
  }

  /** The number of partial keys in a batch. */
  function PartialCount(snaps: seq<Snap>): nat {
    if |snaps| == 0 then 0
    else PartialCount(snaps[..|snaps| - 1]) + if Partial(snaps[|snaps| - 1].key) then 1 else 0
  }

  /** The batch after `put_multi` completed its partial keys in place: the
      k-th partial key (in batch order) gets id `next + k`. */
  function Completed(snaps: seq<Snap>, next: int): (r: seq<Snap>)
    ensures |r| == |snaps|
    ensures forall i :: 0 <= i < |snaps| ==>
              r[i] == if Partial(snaps[i].key)
                      then Snap(AllocatedKey(snaps[i].key, next + PartialCount(snaps[..i])), snaps[i].props)
                      else snaps[i]
  {
    seq(|snaps|, i requires 0 <= i < |snaps| =>
      if Partial(snaps[i].key)
      then Snap(AllocatedKey(snaps[i].key, next + PartialCount(snaps[..i])), snaps[i].props)
      else snaps[i])
  }

  /** Counting partial keys: an earlier partial key has a smaller rank than
      every later prefix's count. */
  lemma {:induction false} PartialCountGrows(snaps: seq<Snap>, i: nat, j: nat)
    requires i < j <= |snaps| && Partial(snaps[i].key)
    ensures PartialCount(snaps[..i]) < PartialCount(snaps[..j])
    decreases j
  {
    var s := snaps[..j];
    assert s[..j - 1] == snaps[..j - 1];
    if i < j - 1 {
      PartialCountGrows(snaps, i, j - 1);
    } else {
      assert s[j - 1] == snaps[i];
    }
  }

  lemma {:induction false} NoPartialCount(snaps: seq<Snap>)
    requires forall i :: 0 <= i < |snaps| ==> !Partial(snaps[i].key)
    ensures PartialCount(snaps) == 0
  {
    if |snaps| > 0 {
      NoPartialCount(snaps[..|snaps| - 1]);
    }
  }

  /** The count depends on the keys only. */
  lemma {:induction false} PartialCountKeys(a: seq<Snap>, b: seq<Snap>)
    requires |a| == |b| && forall i :: 0 <= i < |a| ==> a[i].key == b[i].key
    ensures PartialCount(a) == PartialCount(b)
  {
    if |a| > 0 {
      PartialCountKeys(a[..|a| - 1], b[..|b| - 1]);
    }
  }

  /** A batch without partial keys is committed as it is and takes no ids. */
  lemma NoPartialCompleted(snaps: seq<Snap>, next: int)
    requires forall i :: 0 <= i < |snaps| ==> !Partial(snaps[i].key)
    ensures Completed(snaps, next) == snaps && PartialCount(snaps) == 0
  {
    NoPartialCount(snaps);
  }

  /** After `put_multi` no key of the batch is partial, complete keys are
      kept, each partial key keeps its namespace and kind, and the ids
      given to partial keys are pairwise distinct and lie in
      [next, next + number of partial keys). */
  lemma CompletedKeys(snaps: seq<Snap>, next: int)
    ensures var r := Completed(snaps, next);
            (forall i :: 0 <= i < |snaps| ==> !Partial(r[i].key) && r[i].props == snaps[i].props) &&
            (forall i :: 0 <= i < |snaps| && !Partial(snaps[i].key) ==> r[i] == snaps[i]) &&
            (forall i :: 0 <= i < |snaps| && Partial(snaps[i].key) ==>
               r[i].key.namespace == snaps[i].key.namespace && r[i].key.kind == snaps[i].key.kind &&
               next <= r[i].key.id.value < next + PartialCount(snaps)) &&
            (forall i, j :: 0 <= i < j < |snaps| && Partial(snaps[i].key) && Partial(snaps[j].key) ==>
               r[i].key != r[j].key)
  {
    var r := Completed(snaps, next);
    forall i | 0 <= i < |snaps| && Partial(snaps[i].key)
      ensures next <= r[i].key.id.value < next + PartialCount(snaps)
    {
      assert snaps[..|snaps|] == snaps;
      PartialCountGrows(snaps, i, |snaps|);
    }
    forall i, j | 0 <= i < j < |snaps| && Partial(snaps[i].key) && Partial(snaps[j].key)
      ensures r[i].key != r[j].key
    {
      PartialCountGrows(snaps, i, j);
    }
  }

  /** The metadata store seen through the datastore client. Ids are handed
      out from a counter, so no id is handed out twice. */
  class MetaStore {
    var records: map<Key, Props>
    var nextId: nat

    constructor (records: map<Key, Props>, nextId: nat)
      ensures this.records == records && this.nextId == nextId
    {
      this.records := records;
      this.nextId := nextId;
    }

    /** `get_multi(keys)`: a new entity object for every key with a record. */
    method GetMulti(keys: seq<Key>) returns (es: seq<Entity>)
      ensures Distinct(es) && fresh(set e | e in es)
      ensures Snapshot(es) == Found(records, keys)
    {
      es := [];
      var i := 0;
      while i < |keys|
        invariant 0 <= i <= |keys|
        invariant Distinct(es) && forall e :: e in es ==> fresh(e)
        invariant Snapshot(es) == Found(records, keys[..i])
      {
        assert keys[..i + 1][..i] == keys[..i];
        if keys[i] in records {
          var e := new Entity(keys[i], records[keys[i]]);
          es := es + [e];
        }
        i := i + 1;
      }
      assert keys[..i] == keys;
    }

    /** `put_multi(entities)`: each partial key is completed in place with
        a fresh id, then each entity's attributes become the record of its key. */
    method PutMulti(es: seq<Entity>)
      requires Distinct(es)
      modifies this, es
      ensures Snapshot(es) == Completed(old(Snapshot(es)), old(nextId))
      ensures records == Commit(old(records), Snapshot(es))
      ensures nextId == old(nextId) + PartialCount(old(Snapshot(es)))
    {
      ghost var pre := Snapshot(es);
      ghost var next0 := nextId;
      ghost var records0 := records;
      ghost var done := Completed(pre, next0);
      var i := 0;
      assert done[..0] == [] && pre[..0] == [];
      while i < |es|
        invariant 0 <= i <= |es|
        invariant PutPrefix(es, i, pre, done, next0, records0)
      {
        PutStep(es, i, pre, done, next0, records0);
        i := i + 1;
      }
      assert done[..i] == done && pre[..i] == pre;
      assert Snapshot(es) == done;
    }

    /** The first i entities of the batch are put, the rest untouched. */
    ghost predicate PutPrefix(es: seq<Entity>, i: nat, pre: seq<Snap>, done: seq<Snap>, next0: int,
                              records0: map<Key, Props>)
      reads this, es
    {
      i <= |es| && |pre| == |es| && |done| == |es| &&
      (forall k :: 0 <= k < i ==> Snap(es[k].key, es[k].props) == done[k]) &&
      (forall k :: i <= k < |es| ==> Snap(es[k].key, es[k].props) == pre[k]) &&
      records == Commit(records0, done[..i]) &&
      nextId == next0 + PartialCount(pre[..i])
    }

    /** One turn of the `put_multi` loop. */
    method PutStep(es: seq<Entity>, i: nat, ghost pre: seq<Snap>, ghost done: seq<Snap>, ghost next0: int,
                   ghost records0: map<Key, Props>)
      requires Distinct(es) && i < |es| && done == Completed(pre, next0)
      requires PutPrefix(es, i, pre, done, next0, records0)
      modifies this, es[i]
      ensures PutPrefix(es, i + 1, pre, done, next0, records0)
    {
      assert done[..i + 1][..i] == done[..i];
      assert pre[..i + 1][..i] == pre[..i];
      ghost var r0 := records;
      PutOne(es[i]);
      assert Snap(es[i].key, es[i].props) == done[i];
      assert records == r0[done[i].key := done[i].props];
    }

    /** One entity of `put_multi`: complete a partial key, then write the record. */
    method PutOne(e: Entity)
      modifies this, e
      ensures e.props == old(e.props)
      ensures Partial(old(e.key)) ==> e.key == AllocatedKey(old(e.key), old(nextId)) && nextId == old(nextId) + 1
      ensures !Partial(old(e.key)) ==> e.key == old(e.key) && nextId == old(nextId)
      ensures records == old(records)[e.key := e.props]
    {
      if e.key.id.None? && e.key.name.None? {
        e.key := AllocatedKey(e.key, nextId);
        nextId := nextId + 1;
      }
      records := records[e.key := e.props];
    }

    /** `allocate_ids(base, n)`: n complete keys with ids never handed out
        before, or ValueError when the base key is not partial. */
    method AllocateIds(base: Key, n: nat) returns (r: Result<seq<Key>>)
      modifies this
      ensures !Partial(base) ==> r == Err(ValueError) && nextId == old(nextId)
      ensures Partial(base) ==> r == Ok(AllocatedKeys(base, old(nextId), n)) && nextId == old(nextId) + n
      ensures records == old(records)
    {
      if base.id.Some? || base.name.Some? {
        return Err(ValueError);
      }
      r := Ok(AllocatedKeys(base, nextId, n));
      nextId := nextId + n;
    }
  }
}
