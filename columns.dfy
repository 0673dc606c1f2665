/** What `_read_columns` and `_write_columns` do to a batch, stated on
    values: one configured column at a time, in configuration order, with the
    per-column loops that merge fetched content into the entities and strip
    uploaded content out of them. */
module Columns {
  import opened Values
  import opened Paths
  import opened Stores

  /** The cache-control header when CACHE_CONTROL is not set. */
  const DefaultCacheControl: string := "public; max-age=3600"

  /** `getenv("CACHE_CONTROL", "public; max-age=3600")`. */
  function CacheControl(env: Option<string>): (r: string)
    ensures env.None? ==> r == DefaultCacheControl
    ensures env.Some? ==> r == env.value
  {
    if env.Some? then env.value else DefaultCacheControl
  }

  // ---------------------------------------------------------------- read

  /** One entity after its fetch result: content sets the attribute, an error leaves it. */
  function Merge(props: Props, column: string, r: FetchResult): Props {
    if r.Fetched? then props[column := r.content] else props
  }

  function MergedSnaps(snaps: seq<Snap>, column: string, results: seq<FetchResult>): (r: seq<Snap>)
    requires |results| == |snaps|
    ensures |r| == |snaps|
    ensures forall i :: 0 <= i < |snaps| ==> r[i] == Snap(snaps[i].key, Merge(snaps[i].props, column, results[i]))
  {
    seq(|snaps|, i requires 0 <= i < |snaps| => Snap(snaps[i].key, Merge(snaps[i].props, column, results[i])))
  }

  /** The read-mode path list as the strings handed to the blob client. */
  function PathStrings(paths: seq<Option<string>>): (r: seq<string>)
    requires forall i :: 0 <= i < |paths| ==> paths[i].Some?
    ensures |r| == |paths| && forall i :: 0 <= i < |paths| ==> r[i] == paths[i].value
  {
    seq(|paths|, i requires 0 <= i < |paths| && paths[i].Some? => paths[i].value)
  }

  /** One column of `_read_columns`: read-mode paths, one batched fetch, merge by position. */
  function ReadColumn(style: IdStyle, c: Column, snaps: seq<Snap>, objects: Objects): Result<seq<Snap>> {
    match BatchPaths(style, c.pathElements, snaps, false)
    case Err(e) => Err(e)
    case Ok(paths) =>
      BatchPathsAligned(style, c.pathElements, snaps, false);
      ReadPathsPresent(style, c.pathElements, snaps);
      Ok(MergedSnaps(snaps, c.name, FetchAll(objects, c.bucket, PathStrings(paths))))
  }

  /** The batch after `_read_columns`, and the exception that stopped it, if any. */
  datatype ReadOutcome = ReadOutcome(snaps: seq<Snap>, error: Option<Error>)

  function ReadSpec(style: IdStyle, cols: ColumnConfigs, snaps: seq<Snap>, objects: Objects): ReadOutcome
    decreases |cols|
  {
    if |cols| == 0 then ReadOutcome(snaps, None)
    else
      match ReadColumn(style, cols[0], snaps, objects)
      case Err(e) => ReadOutcome(snaps, Some(e))
      case Ok(next) => ReadSpec(style, cols[1..], next, objects)
  }

  /** The read-mode path of an entity for a column (defined when it does not raise). */
  function ReadPath(style: IdStyle, c: Column, s: Snap): string
    requires EntityPath(style, c.pathElements, s.key, s.props, false).Ok?
  {
    PathPresence(style, c.pathElements, s.key, s.props);
    EntityPath(style, c.pathElements, s.key, s.props, false).value.value
  }

  /** A column sets `entity[column]` exactly for the entities whose aligned
      fetch result is content; all other entities and attributes stay as
      they were; it raises exactly when some entity's path does. */
  lemma ReadColumnExact(style: IdStyle, c: Column, snaps: seq<Snap>, objects: Objects)
    ensures ReadColumn(style, c, snaps, objects).Err? <==>
            exists i :: 0 <= i < |snaps| && EntityPath(style, c.pathElements, snaps[i].key, snaps[i].props, false).Err?
    ensures ReadColumn(style, c, snaps, objects).Ok? ==>
            var next := ReadColumn(style, c, snaps, objects).value;
            |next| == |snaps| &&
            forall i :: 0 <= i < |snaps| ==>
              var r := Fetch(objects, c.bucket, ReadPath(style, c, snaps[i]));
              next[i].key == snaps[i].key &&
              (r.Fetched? ==> next[i].props == snaps[i].props[c.name := r.content]) &&
              (r.FetchError? ==> next[i].props == snaps[i].props)
  {
    BatchPathsAligned(style, c.pathElements, snaps, false);
  }

  /** Attribute `a` has the same presence and value in both maps. */
  predicate SameAt(p: Props, q: Props, a: string) {
    (a in p <==> a in q) && (a in p ==> p[a] == q[a])
  }

  /** Some configured column is named `a`. */
  predicate IsColumn(cols: ColumnConfigs, a: string) {
    exists j :: 0 <= j < |cols| && cols[j].name == a
  }

  /** Reading keeps the batch aligned and keys fixed, and touches no
      attribute that is not a configured column. */
  lemma {:induction false} ReadSpecFrame(style: IdStyle, cols: ColumnConfigs, snaps: seq<Snap>, objects: Objects)
    ensures var out := ReadSpec(style, cols, snaps, objects);
            |out.snaps| == |snaps| &&
            forall i :: 0 <= i < |snaps| ==>
              out.snaps[i].key == snaps[i].key &&
              forall a :: !IsColumn(cols, a) ==> SameAt(out.snaps[i].props, snaps[i].props, a)
    decreases |cols|
  {
    if |cols| > 0 {
      ReadColumnExact(style, cols[0], snaps, objects);
      match ReadColumn(style, cols[0], snaps, objects)
      case Err(_) =>
      case Ok(next) =>
        ReadSpecFrame(style, cols[1..], next, objects);
        assert forall a :: !IsColumn(cols, a) ==> !IsColumn(cols[1..], a) && a != cols[0].name;
    }
  }

  /** Merge the fetch results of one column into the batch, by position
      (the inner loop of `_read_columns`). */
  method MergeColumn(entities: seq<Entity>, column: string, results: seq<FetchResult>)
    requires Distinct(entities) && |results| == |entities|
    modifies entities
    ensures Snapshot(entities) == MergedSnaps(old(Snapshot(entities)), column, results)
  {
    ghost var pre := Snapshot(entities);
    var i := 0;
    while i < |entities|
      invariant 0 <= i <= |entities|
      invariant forall k :: 0 <= k < i ==>
                  entities[k].key == pre[k].key && entities[k].props == Merge(pre[k].props, column, results[k])
      invariant forall k :: i <= k < |entities| ==> entities[k].key == pre[k].key && entities[k].props == pre[k].props
    {
      if results[i].Fetched? {
        entities[i].props := entities[i].props[column := results[i].content];
      }
      i := i + 1;
    }
  }

  // ---------------------------------------------------------------- write

  /** The entity becomes a file descriptor and loses the column. */
  predicate Offloads(s: Snap, column: string, path: Option<string>) {
    path.Some? && column in s.props
  }

  function StrippedSnaps(snaps: seq<Snap>, column: string, paths: seq<Option<string>>): (r: seq<Snap>)
    requires |paths| == |snaps|
    ensures |r| == |snaps|
    ensures forall i :: 0 <= i < |snaps| ==>
              r[i] == if Offloads(snaps[i], column, paths[i]) then Snap(snaps[i].key, snaps[i].props - {column}) else snaps[i]
  {
    seq(|snaps|, i requires 0 <= i < |snaps| =>
      if Offloads(snaps[i], column, paths[i]) then Snap(snaps[i].key, snaps[i].props - {column}) else snaps[i])
  }

  /** `upload_files` for one column. */
  function Descriptors(snaps: seq<Snap>, column: string, paths: seq<Option<string>>,
                       compress: Option<string>, level: Option<int>, cacheControl: string): seq<FileDescriptor>
    requires |paths| == |snaps|
  {
    if |snaps| == 0 then []
    else
      var n := |snaps| - 1;
      Descriptors(snaps[..n], column, paths[..n], compress, level, cacheControl) +
      if Offloads(snaps[n], column, paths[n])
      then [FileDescriptor(snaps[n].props[column], paths[n].value, compress, level, cacheControl)]
      else []
  }

  /** The positions of the entities that are offloaded, in increasing order. */
  function OffloadedPositions(snaps: seq<Snap>, column: string, paths: seq<Option<string>>): (r: seq<nat>)
    requires |paths| == |snaps|
    ensures forall k :: 0 <= k < |r| ==> r[k] < |snaps| && Offloads(snaps[r[k]], column, paths[r[k]])
    ensures forall k, l :: 0 <= k < l < |r| ==> r[k] < r[l]
    ensures forall i :: 0 <= i < |snaps| && Offloads(snaps[i], column, paths[i]) ==> i in r
  {
    if |snaps| == 0 then []
    else
      var n := |snaps| - 1;
      var init := OffloadedPositions(snaps[..n], column, paths[..n]);
      if Offloads(snaps[n], column, paths[n]) then init + [n] else init
  }

  /** The upload list holds one descriptor per offloaded entity, in batch
      order, carrying the entity's original column value, its path, the
      compression settings and the cache-control header. */
  lemma {:induction false} DescriptorsExact(snaps: seq<Snap>, column: string, paths: seq<Option<string>>,
                                            compress: Option<string>, level: Option<int>, cacheControl: string)
    requires |paths| == |snaps|
    ensures var d := Descriptors(snaps, column, paths, compress, level, cacheControl);
            var pos := OffloadedPositions(snaps, column, paths);
            |d| == |pos| &&
            forall k :: 0 <= k < |pos| ==>
              d[k] == FileDescriptor(snaps[pos[k]].props[column], paths[pos[k]].value, compress, level, cacheControl)
  {
    if |snaps| > 0 {
      var n := |snaps| - 1;
      var s0, p0 := snaps[..n], paths[..n];
      DescriptorsExact(s0, column, p0, compress, level, cacheControl);
      var d0 := Descriptors(s0, column, p0, compress, level, cacheControl);
      var pos0 := OffloadedPositions(s0, column, p0);
      assert forall k :: 0 <= k < |pos0| ==> s0[pos0[k]] == snaps[pos0[k]] && p0[pos0[k]] == paths[pos0[k]];
      OffloadedLast(snaps, column, paths, compress, level, cacheControl);
    }
  }

  /** The last entity adds one descriptor and one position, or neither. */
  lemma OffloadedLast(snaps: seq<Snap>, column: string, paths: seq<Option<string>>,
                      compress: Option<string>, level: Option<int>, cacheControl: string)
    requires |paths| == |snaps| > 0
    ensures var n := |snaps| - 1;
            var d0 := Descriptors(snaps[..n], column, paths[..n], compress, level, cacheControl);
            var pos0 := OffloadedPositions(snaps[..n], column, paths[..n]);
            if Offloads(snaps[n], column, paths[n])
            then Descriptors(snaps, column, paths, compress, level, cacheControl) ==
                   d0 + [FileDescriptor(snaps[n].props[column], paths[n].value, compress, level, cacheControl)] &&
                 OffloadedPositions(snaps, column, paths) == pos0 + [n]
            else Descriptors(snaps, column, paths, compress, level, cacheControl) == d0 &&
                 OffloadedPositions(snaps, column, paths) == pos0
  {
  }

  /** One column of `_write_columns`: write-mode paths, strip, one batched upload. */
  function WriteColumn(style: IdStyle, c: Column, snaps: seq<Snap>, objects: Objects,
                       compress: Option<string>, level: Option<int>, cacheControl: string)
    : Result<(seq<Snap>, Objects)>
  {
    match BatchPaths(style, c.pathElements, snaps, true)
    case Err(e) => Err(e)
    case Ok(paths) =>
      BatchPathsAligned(style, c.pathElements, snaps, true);
      Ok((StrippedSnaps(snaps, c.name, paths),
          ApplyPuts(objects, c.bucket, Descriptors(snaps, c.name, paths, compress, level, cacheControl))))
  }

  /** The batch and the blobs after `_write_columns`, and the exception that stopped it, if any. */
  datatype WriteOutcome = WriteOutcome(snaps: seq<Snap>, objects: Objects, error: Option<Error>)

  function WriteSpec(style: IdStyle, cols: ColumnConfigs, snaps: seq<Snap>, objects: Objects,
                     compress: Option<string>, level: Option<int>, cacheControl: string): WriteOutcome
    decreases |cols|
  {
    if |cols| == 0 then WriteOutcome(snaps, objects, None)
    else
      match WriteColumn(style, cols[0], snaps, objects, compress, level, cacheControl)
      case Err(e) => WriteOutcome(snaps, objects, Some(e))
      case Ok(r) => WriteSpec(style, cols[1..], r.0, r.1, compress, level, cacheControl)
  }

  /** A column pops `entity[column]` exactly when the entity has a write path
      and the attribute; every other entity and attribute is unchanged; it
      raises exactly when some entity's write path does. */
  lemma StripExact(style: IdStyle, c: Column, snaps: seq<Snap>, objects: Objects,
                   compress: Option<string>, level: Option<int>, cacheControl: string)
    ensures WriteColumn(style, c, snaps, objects, compress, level, cacheControl).Err? <==>
            exists i :: 0 <= i < |snaps| && EntityPath(style, c.pathElements, snaps[i].key, snaps[i].props, true).Err?
    ensures WriteColumn(style, c, snaps, objects, compress, level, cacheControl).Ok? ==>
            var next := WriteColumn(style, c, snaps, objects, compress, level, cacheControl).value.0;
            |next| == |snaps| &&
            forall i :: 0 <= i < |snaps| ==>
              var path := EntityPath(style, c.pathElements, snaps[i].key, snaps[i].props, true).value;
              next[i].key == snaps[i].key &&
              (path.Some? && c.name in snaps[i].props ==> next[i].props == snaps[i].props - {c.name}) &&
              (path.None? || c.name !in snaps[i].props ==> next[i].props == snaps[i].props)
  {
    BatchPathsAligned(style, c.pathElements, snaps, true);
  }

  /** An entity lacking a path element of a column keeps that column's value
      inline (it is neither uploaded nor stripped). */
  lemma MissingElementKeepsColumn(style: IdStyle, c: Column, snaps: seq<Snap>, objects: Objects,
                                  compress: Option<string>, level: Option<int>, cacheControl: string, i: nat)
    requires i < |snaps| && Missing(c.pathElements, snaps[i].props)
    requires WriteColumn(style, c, snaps, objects, compress, level, cacheControl).Ok?
    ensures WriteColumn(style, c, snaps, objects, compress, level, cacheControl).value.0[i] == snaps[i]
  {
    StripExact(style, c, snaps, objects, compress, level, cacheControl);
  }

  /** Writing keeps the batch aligned and keys fixed, and removes no
      attribute that is not a configured column. */
  lemma {:induction false} WriteSpecFrame(style: IdStyle, cols: ColumnConfigs, snaps: seq<Snap>, objects: Objects,
                                          compress: Option<string>, level: Option<int>, cacheControl: string)
    ensures var out := WriteSpec(style, cols, snaps, objects, compress, level, cacheControl);
            |out.snaps| == |snaps| &&
            forall i :: 0 <= i < |snaps| ==>
              out.snaps[i].key == snaps[i].key &&
              forall a :: !IsColumn(cols, a) ==> SameAt(out.snaps[i].props, snaps[i].props, a)
    decreases |cols|
  {
    if |cols| > 0 {
      StripExact(style, cols[0], snaps, objects, compress, level, cacheControl);
      match WriteColumn(style, cols[0], snaps, objects, compress, level, cacheControl)
      case Err(_) =>
      case Ok(r) =>
        WriteSpecFrame(style, cols[1..], r.0, r.1, compress, level, cacheControl);
        assert forall a :: !IsColumn(cols, a) ==> !IsColumn(cols[1..], a) && a != cols[0].name;
    }
  }

  /** The upload list grows by at most one descriptor per entity. */
  lemma DescriptorsStep(snaps: seq<Snap>, column: string, paths: seq<Option<string>>, i: nat,
                        compress: Option<string>, level: Option<int>, cacheControl: string)
    requires |paths| == |snaps| && i < |snaps|
    ensures Descriptors(snaps[..i + 1], column, paths[..i + 1], compress, level, cacheControl) ==
            Descriptors(snaps[..i], column, paths[..i], compress, level, cacheControl) +
            if Offloads(snaps[i], column, paths[i])
            then [FileDescriptor(snaps[i].props[column], paths[i].value, compress, level, cacheControl)]
            else []
  {
    assert snaps[..i + 1][..i] == snaps[..i] && paths[..i + 1][..i] == paths[..i];
  }

  /** Build the upload list of one column and pop the column from every
      entity that goes into it (the inner loop of `_write_columns`). */
  method StripColumn(entities: seq<Entity>, column: string, files: seq<Option<string>>,
                     compress: Option<string>, level: Option<int>, cacheControl: string)
    returns (uploads: seq<FileDescriptor>)
    requires Distinct(entities) && |files| == |entities|
    modifies entities
    ensures uploads == Descriptors(old(Snapshot(entities)), column, files, compress, level, cacheControl)
    ensures Snapshot(entities) == StrippedSnaps(old(Snapshot(entities)), column, files)
  {
    ghost var pre := Snapshot(entities);
    uploads := [];
    var i := 0;
    while i < |entities|
      invariant 0 <= i <= |entities|
      invariant uploads == Descriptors(pre[..i], column, files[..i], compress, level, cacheControl)
      invariant forall k :: 0 <= k < i ==>
                  Snap(entities[k].key, entities[k].props) == StrippedSnaps(pre, column, files)[k]
      invariant forall k :: i <= k < |entities| ==> entities[k].key == pre[k].key && entities[k].props == pre[k].props
    {
      DescriptorsStep(pre, column, files, i, compress, level, cacheControl);
      if files[i].Some? && column in entities[i].props {
        uploads := uploads + [FileDescriptor(entities[i].props[column], files[i].value, compress, level, cacheControl)];
        entities[i].props := entities[i].props - {column};
      }
      i := i + 1;
    }
    assert pre[..i] == pre && files[..i] == files;
  }

  // ------------------------------------------------------- one column, in place

  /** The body of the column loop of `_read_columns`: paths, one batched
      fetch from the column's bucket, merge. */
  method FetchColumn(style: IdStyle, blobs: BlobStore, c: Column, entities: seq<Entity>) returns (err: Option<Error>)
    requires Distinct(entities)
    modifies entities
    ensures var r := ReadColumn(style, c, old(Snapshot(entities)), blobs.objects);
            (r.Err? ==> err == Some(r.error) && Snapshot(entities) == old(Snapshot(entities))) &&
            (r.Ok? ==> err.None? && Snapshot(entities) == r.value)
  {
    var files := GetFilesPaths(style, entities, c.pathElements, false);
    if files.Err? {
      return Some(files.error);
    }
    ghost var pre := Snapshot(entities);
    BatchPathsAligned(style, c.pathElements, pre, false);
    ReadPathsPresent(style, c.pathElements, pre);
    var contents := blobs.Get(c.bucket, PathStrings(files.value));
    assert contents == FetchAll(blobs.objects, c.bucket, PathStrings(files.value));
    MergeColumn(entities, c.name, contents);
    return None;
  }

  /** The body of the column loop of `_write_columns`: paths, strip, one
      batched upload to the column's bucket. */
  method OffloadColumn(style: IdStyle, blobs: BlobStore, c: Column, entities: seq<Entity>,
                       compress: Option<string>, level: Option<int>, cacheControl: string)
    returns (err: Option<Error>)
    requires Distinct(entities)
    modifies entities, blobs
    ensures var r := WriteColumn(style, c, old(Snapshot(entities)), old(blobs.objects), compress, level, cacheControl);
            (r.Err? ==> err == Some(r.error) && Snapshot(entities) == old(Snapshot(entities)) && blobs.objects == old(blobs.objects)) &&
            (r.Ok? ==> err.None? && Snapshot(entities) == r.value.0 && blobs.objects == r.value.1)
  {
    var files := GetFilesPaths(style, entities, c.pathElements, true);
    if files.Err? {
      return Some(files.error);
    }
    BatchPathsAligned(style, c.pathElements, Snapshot(entities), true);
    var uploads := StripColumn(entities, c.name, files.value, compress, level, cacheControl);
    blobs.Puts(c.bucket, uploads);
    return None;
  }

  /** One turn of the column loop of `_read_columns`. */
  lemma ReadSpecStep(style: IdStyle, cols: ColumnConfigs, i: nat, snaps: seq<Snap>, objects: Objects)
    requires i < |cols|
    ensures var r := ReadColumn(style, cols[i], snaps, objects);
            ReadSpec(style, cols[i..], snaps, objects) ==
            if r.Err? then ReadOutcome(snaps, Some(r.error)) else ReadSpec(style, cols[i + 1..], r.value, objects)
  {
    assert cols[i..][0] == cols[i] && cols[i..][1..] == cols[i + 1..];
  }

  /** One turn of the column loop of `_write_columns`. */
  lemma WriteSpecStep(style: IdStyle, cols: ColumnConfigs, i: nat, snaps: seq<Snap>, objects: Objects,
                      compress: Option<string>, level: Option<int>, cacheControl: string)
    requires i < |cols|
    ensures var r := WriteColumn(style, cols[i], snaps, objects, compress, level, cacheControl);
            WriteSpec(style, cols[i..], snaps, objects, compress, level, cacheControl) ==
            if r.Err? then WriteOutcome(snaps, objects, Some(r.error))
            else WriteSpec(style, cols[i + 1..], r.value.0, r.value.1, compress, level, cacheControl)
  {
    assert cols[i..][0] == cols[i] && cols[i..][1..] == cols[i + 1..];
  }

  /** The column loop of `_read_columns`: the columns in configuration
      order, stopping at the first exception. */
  method FetchColumns(style: IdStyle, blobs: BlobStore, cols: ColumnConfigs, entities: seq<Entity>)
    returns (err: Option<Error>)
    requires Distinct(entities)
    modifies entities
    ensures ReadOutcome(Snapshot(entities), err) == ReadSpec(style, cols, old(Snapshot(entities)), blobs.objects)
  {
    ghost var pre := Snapshot(entities);
    var i := 0;
    while i < |cols|
      invariant 0 <= i <= |cols|
      invariant ReadSpec(style, cols[i..], Snapshot(entities), blobs.objects) == ReadSpec(style, cols, pre, blobs.objects)
    {
      ghost var s := Snapshot(entities);
      ghost var r := ReadColumn(style, cols[i], s, blobs.objects);
      ReadSpecStep(style, cols, i, s, blobs.objects);
      err := FetchColumn(style, blobs, cols[i], entities);
      if err.Some? {
        assert r.Err? && Snapshot(entities) == s;
        return;
      }
      assert r.Ok? && Snapshot(entities) == r.value;
      i := i + 1;
    }
    return None;
  }

  /** The column loop of `_write_columns`: the columns in configuration
      order, stopping at the first exception. */
  method OffloadColumns(style: IdStyle, blobs: BlobStore, cols: ColumnConfigs, entities: seq<Entity>,
                        compress: Option<string>, level: Option<int>, cacheControl: string)
    returns (err: Option<Error>)
    requires Distinct(entities)
    modifies entities, blobs
    ensures WriteOutcome(Snapshot(entities), blobs.objects, err) ==
            WriteSpec(style, cols, old(Snapshot(entities)), old(blobs.objects), compress, level, cacheControl)
  {
    ghost var pre := Snapshot(entities);
    ghost var objects0 := blobs.objects;
    var i := 0;
    while i < |cols|
      invariant 0 <= i <= |cols|
      invariant WriteSpec(style, cols[i..], Snapshot(entities), blobs.objects, compress, level, cacheControl) ==
                WriteSpec(style, cols, pre, objects0, compress, level, cacheControl)
    {
      ghost var s := Snapshot(entities);
      ghost var o := blobs.objects;
      ghost var r := WriteColumn(style, cols[i], s, o, compress, level, cacheControl);
      WriteSpecStep(style, cols, i, s, o, compress, level, cacheControl);
      err := OffloadColumn(style, blobs, cols[i], entities, compress, level, cacheControl);
      if err.Some? {
        assert r.Err? && Snapshot(entities) == s && blobs.objects == o;
        return;
      }
      assert r.Ok? && Snapshot(entities) == r.value.0 && blobs.objects == r.value.1;
      i := i + 1;
    }
    return None;
  }
}
