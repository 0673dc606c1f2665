/** Writing an entity and reading it back: under a configuration whose
    columns are independent of one another, what `_write_columns` strips and
    uploads is exactly what `_read_columns` fetches and merges back. */
module RoundTrip {
  import opened Values
  import opened Paths
  import opened Stores
  import opened Columns

  /** Columns have distinct names and distinct blob locations, and no column
      is a path element of any column (so stripping or merging a column never
      changes a path). */
  predicate Independent(cols: ColumnConfigs) {
    (forall i, j :: 0 <= i < j < |cols| ==> cols[i].name != cols[j].name && cols[i].bucket != cols[j].bucket) &&
    (forall i, j, k :: 0 <= i < |cols| && 0 <= j < |cols| && 0 <= k < |cols[j].pathElements| ==>
       cols[i].name != cols[j].pathElements[k])
  }

  /** No column's read-mode path raises for this entity. */
  predicate ReadPathsOk(style: IdStyle, cols: ColumnConfigs, s: Snap) {
    forall j :: 0 <= j < |cols| ==> EntityPath(style, cols[j].pathElements, s.key, s.props, false).Ok?
  }

  /** No blob is stored yet where a column that the write will not offload
      is looked up on reading. */
  predicate NoStaleBlobs(style: IdStyle, cols: ColumnConfigs, s: Snap, objects: Objects) {
    ReadPathsOk(style, cols, s) &&
    forall j :: 0 <= j < |cols| && !Offloaded(style, cols[j], s) ==>
      Fetch(objects, cols[j].bucket, ReadPath(style, cols[j], s)).FetchError?
  }

  /** The entity's value of column `c` goes to the blob store. */
  predicate Offloaded(style: IdStyle, c: Column, s: Snap) {
    var p := EntityPath(style, c.pathElements, s.key, s.props, true);
    p.Ok? && p.value.Some? && c.name in s.props
  }

  function OffNames(style: IdStyle, cols: ColumnConfigs, s: Snap): set<string> {
    set j | 0 <= j < |cols| && Offloaded(style, cols[j], s) :: cols[j].name
  }

  lemma IndependentRest(cols: ColumnConfigs)
    requires |cols| > 0 && Independent(cols)
    ensures Independent(cols[1..])
    ensures forall j :: 0 <= j < |cols[1..]| ==> cols[1..][j] == cols[j + 1]
  {
    var rest := cols[1..];
    forall i, j, k | 0 <= i < |rest| && 0 <= j < |rest| && 0 <= k < |rest[j].pathElements|
      ensures rest[i].name != rest[j].pathElements[k]
    {
      assert rest[i] == cols[i + 1] && rest[j] == cols[j + 1];
    }
  }

  /** A path depends on the entity only through its key and its path elements. */
  lemma SameOnElements(style: IdStyle, pe: seq<string>, key: Key, p1: Props, p2: Props, appendNone: bool)
    requires forall k :: 0 <= k < |pe| ==> SameAt(p1, p2, pe[k])
    ensures EntityPath(style, pe, key, p1, appendNone) == EntityPath(style, pe, key, p2, appendNone)
  {
    assert Elements(style, pe, key, p1) == Elements(style, pe, key, p2);
    assert Missing(pe, p1) == Missing(pe, p2);
  }

  /** When the read path does not raise, neither does the write path, and
      when the write path is not None it is the read path. */
  lemma WriteFromRead(style: IdStyle, pe: seq<string>, key: Key, props: Props)
    requires EntityPath(style, pe, key, props, false).Ok?
    ensures EntityPath(style, pe, key, props, true).Ok?
    ensures EntityPath(style, pe, key, props, true).value.Some? ==>
            EntityPath(style, pe, key, props, true) == EntityPath(style, pe, key, props, false)
  {
  }

  /** Attribute maps that differ only in column names agree on every path element. */
  lemma ColumnEditKeepsPaths(style: IdStyle, cols: ColumnConfigs, key: Key, p1: Props, p2: Props)
    requires Independent(cols)
    requires forall a :: !IsColumn(cols, a) ==> SameAt(p1, p2, a)
    ensures forall j, m :: 0 <= j < |cols| ==>
              EntityPath(style, cols[j].pathElements, key, p1, m) == EntityPath(style, cols[j].pathElements, key, p2, m)
  {
    forall j, m | 0 <= j < |cols|
      ensures EntityPath(style, cols[j].pathElements, key, p1, m) == EntityPath(style, cols[j].pathElements, key, p2, m)
    {
      var pe := cols[j].pathElements;
      forall k | 0 <= k < |pe| ensures SameAt(p1, p2, pe[k]) {
        assert !IsColumn(cols, pe[k]);
      }
      SameOnElements(style, pe, key, p1, p2, m);
    }
  }

  /** Uploads of the columns never touch a bucket none of them names. */
  lemma {:induction false} WriteOtherBucket(style: IdStyle, cols: ColumnConfigs, snaps: seq<Snap>, objects: Objects,
                                            compress: Option<string>, level: Option<int>, cacheControl: string,
                                            bucket: string, path: string)
    requires forall j :: 0 <= j < |cols| ==> cols[j].bucket != bucket
    ensures Fetch(WriteSpec(style, cols, snaps, objects, compress, level, cacheControl).objects, bucket, path)
            == Fetch(objects, bucket, path)
    decreases |cols|
  {
    if |cols| > 0 {
      match WriteColumn(style, cols[0], snaps, objects, compress, level, cacheControl)
      case Err(_) =>
      case Ok(r) =>
        assert forall j :: 0 <= j < |cols[1..]| ==> cols[1..][j] == cols[j + 1];
        WriteOtherBucket(style, cols[1..], r.0, r.1, compress, level, cacheControl, bucket, path);
        BatchPathsAligned(style, cols[0].pathElements, snaps, true);
        var paths := BatchPaths(style, cols[0].pathElements, snaps, true).value;
        ApplyPutsOtherBucket(objects, cols[0].bucket,
          Descriptors(snaps, cols[0].name, paths, compress, level, cacheControl), bucket, path);
    }
  }

  lemma DescriptorsOne(s: Snap, column: string, path: Option<string>,
                       compress: Option<string>, level: Option<int>, cacheControl: string)
    ensures Descriptors([s], column, [path], compress, level, cacheControl) ==
            if Offloads(s, column, path) then [FileDescriptor(s.props[column], path.value, compress, level, cacheControl)] else []
  {
    assert [s][..0] == [] && [path][..0] == [];
  }

  lemma ApplyPutsOne(objects: Objects, bucket: string, f: FileDescriptor)
    ensures ApplyPuts(objects, bucket, [f]) == objects[(bucket, f.path) := f]
  {
    assert [f][..0] == [];
  }

  /** The entity after the first column of its write. */
  function StripFirst(style: IdStyle, c: Column, s: Snap): Snap {
    Snap(s.key, if Offloaded(style, c, s) then s.props - {c.name} else s.props)
  }

  /** One column of a one-entity write, when its read path does not raise. */
  lemma WriteColumnOne(style: IdStyle, c: Column, s: Snap, objects: Objects,
                       compress: Option<string>, level: Option<int>, cacheControl: string)
    requires EntityPath(style, c.pathElements, s.key, s.props, false).Ok?
    ensures var path := EntityPath(style, c.pathElements, s.key, s.props, true);
            path.Ok? && (Offloads(s, c.name, path.value) <==> Offloaded(style, c, s)) &&
            WriteColumn(style, c, [s], objects, compress, level, cacheControl) ==
            Ok(([StripFirst(style, c, s)], ApplyPuts(objects, c.bucket, Descriptors([s], c.name, [path.value], compress, level, cacheControl))))
  {
    WriteFromRead(style, c.pathElements, s.key, s.props);
    var path := EntityPath(style, c.pathElements, s.key, s.props, true).value;
    BatchPathsStep(style, c.pathElements, [s], 0, true);
    assert [s][..0] == [] && [s][..1] == [s];
    assert BatchPaths(style, c.pathElements, [], true) == Ok([]);
    assert BatchPaths(style, c.pathElements, [s], true) == Ok([] + [path]);
    assert StrippedSnaps([s], c.name, [path]) == [StripFirst(style, c, s)];
  }

  /** The first column of a one-entity write does not raise and strips the
      column exactly when it is offloaded. */
  lemma WriteFirstColumn(style: IdStyle, c: Column, s: Snap, objects: Objects,
                         compress: Option<string>, level: Option<int>, cacheControl: string)
    requires EntityPath(style, c.pathElements, s.key, s.props, false).Ok?
    ensures WriteColumn(style, c, [s], objects, compress, level, cacheControl).Ok?
    ensures WriteColumn(style, c, [s], objects, compress, level, cacheControl).value.0 == [StripFirst(style, c, s)]
  {
    WriteColumnOne(style, c, s, objects, compress, level, cacheControl);
  }

  /** The blobs after the first column of a one-entity write: the value at
      the read path when offloaded; nothing else in any other bucket. */
  lemma WriteFirstBlobs(style: IdStyle, c: Column, s: Snap, objects: Objects,
                        compress: Option<string>, level: Option<int>, cacheControl: string)
    requires EntityPath(style, c.pathElements, s.key, s.props, false).Ok?
    requires WriteColumn(style, c, [s], objects, compress, level, cacheControl).Ok?
    ensures var r := WriteColumn(style, c, [s], objects, compress, level, cacheControl).value;
            Fetch(r.1, c.bucket, ReadPath(style, c, s)) ==
            if Offloaded(style, c, s) then Fetched(s.props[c.name]) else Fetch(objects, c.bucket, ReadPath(style, c, s))
    ensures var r := WriteColumn(style, c, [s], objects, compress, level, cacheControl).value;
            forall b, p :: b != c.bucket ==> Fetch(r.1, b, p) == Fetch(objects, b, p)
  {
    WriteColumnOne(style, c, s, objects, compress, level, cacheControl);
    WriteFromRead(style, c.pathElements, s.key, s.props);
    var path := EntityPath(style, c.pathElements, s.key, s.props, true).value;
    DescriptorsOne(s, c.name, path, compress, level, cacheControl);
    var d := Descriptors([s], c.name, [path], compress, level, cacheControl);
    if Offloaded(style, c, s) {
      ApplyPutsOne(objects, c.bucket, d[0]);
    }
    forall b, p | b != c.bucket ensures Fetch(ApplyPuts(objects, c.bucket, d), b, p) == Fetch(objects, b, p) {
      ApplyPutsOtherBucket(objects, c.bucket, d, b, p);
    }
  }

  lemma MinusUnion(m: Props, a: set<string>, b: set<string>)
    ensures (m - a) - b == m - (b + a)
  {
  }

  /** Stripping the first column changes neither the paths nor the
      offloading of the other columns. */
  lemma StripFirstKeeps(style: IdStyle, cols: ColumnConfigs, s: Snap)
    requires |cols| > 0 && Independent(cols) && ReadPathsOk(style, cols, s)
    ensures var s1 := StripFirst(style, cols[0], s);
            ReadPathsOk(style, cols[1..], s1) &&
            forall j :: 0 <= j < |cols[1..]| ==>
              cols[1..][j] == cols[j + 1] &&
              ReadPath(style, cols[1..][j], s1) == ReadPath(style, cols[1..][j], s) &&
              Offloaded(style, cols[1..][j], s1) == Offloaded(style, cols[1..][j], s) &&
              SameAt(s1.props, s.props, cols[1..][j].name)
  {
    var s1 := StripFirst(style, cols[0], s);
    IndependentRest(cols);
    assert forall a :: !IsColumn(cols, a) ==> SameAt(s.props, s1.props, a);
    ColumnEditKeepsPaths(style, cols, s.key, s.props, s1.props);
    forall j | 0 <= j < |cols[1..]| ensures SameAt(s1.props, s.props, cols[1..][j].name) {
      assert cols[1..][j].name != cols[0].name;
    }
  }

  /** The offloaded names of a one-entity write: the first column's if it is
      offloaded, and those of the rest on the stripped entity. */
  lemma OffNamesFirst(style: IdStyle, cols: ColumnConfigs, s: Snap)
    requires |cols| > 0 && Independent(cols) && ReadPathsOk(style, cols, s)
    ensures OffNames(style, cols, s) ==
            OffNames(style, cols[1..], StripFirst(style, cols[0], s)) + (if Offloaded(style, cols[0], s) then {cols[0].name} else {})
    ensures cols[0].name !in OffNames(style, cols[1..], StripFirst(style, cols[0], s))
  {
    StripFirstKeeps(style, cols, s);
    OffNamesFirstSub(style, cols, s);
    OffNamesRestSub(style, cols, s);
  }

  lemma OffNamesFirstSub(style: IdStyle, cols: ColumnConfigs, s: Snap)
    requires |cols| > 0
    requires forall j :: 0 <= j < |cols[1..]| ==>
               cols[1..][j] == cols[j + 1] &&
               Offloaded(style, cols[1..][j], StripFirst(style, cols[0], s)) == Offloaded(style, cols[1..][j], s)
    ensures OffNames(style, cols, s) <=
            OffNames(style, cols[1..], StripFirst(style, cols[0], s)) + (if Offloaded(style, cols[0], s) then {cols[0].name} else {})
  {
    var rest, s1 := cols[1..], StripFirst(style, cols[0], s);
    forall a | a in OffNames(style, cols, s)
      ensures a in OffNames(style, rest, s1) + (if Offloaded(style, cols[0], s) then {cols[0].name} else {})
    {
      var j :| 0 <= j < |cols| && Offloaded(style, cols[j], s) && cols[j].name == a;
      if j > 0 {
        assert rest[j - 1] == cols[j];
      }
    }
  }

  lemma OffNamesRestSub(style: IdStyle, cols: ColumnConfigs, s: Snap)
    requires |cols| > 0 && forall j :: 0 <= j < |cols[1..]| ==> cols[1..][j].name != cols[0].name
    requires forall j :: 0 <= j < |cols[1..]| ==>
               cols[1..][j] == cols[j + 1] &&
               Offloaded(style, cols[1..][j], StripFirst(style, cols[0], s)) == Offloaded(style, cols[1..][j], s)
    ensures forall a :: a in OffNames(style, cols[1..], StripFirst(style, cols[0], s)) ==>
              a in OffNames(style, cols, s) && a != cols[0].name
  {
    var rest, s1 := cols[1..], StripFirst(style, cols[0], s);
    forall a | a in OffNames(style, rest, s1) ensures a in OffNames(style, cols, s) && a != cols[0].name {
      var j :| 0 <= j < |rest| && Offloaded(style, rest[j], s1) && rest[j].name == a;
      assert cols[j + 1] == rest[j];
    }
  }

  /** A one-entity write strips exactly the offloaded columns. */
  lemma {:induction false} WriteOneSnaps(style: IdStyle, cols: ColumnConfigs, s: Snap, objects: Objects,
                                         compress: Option<string>, level: Option<int>, cacheControl: string)
    requires Independent(cols) && ReadPathsOk(style, cols, s)
    ensures var w := WriteSpec(style, cols, [s], objects, compress, level, cacheControl);
            w.error == None && w.snaps == [Snap(s.key, s.props - OffNames(style, cols, s))]
    decreases |cols|
  {
    if |cols| == 0 {
      assert s.props - OffNames(style, cols, s) == s.props;
    } else {
      var c, rest := cols[0], cols[1..];
      var s1 := StripFirst(style, c, s);
      WriteFirstColumn(style, c, s, objects, compress, level, cacheControl);
      var r := WriteColumn(style, c, [s], objects, compress, level, cacheControl).value;
      StripFirstKeeps(style, cols, s);
      IndependentRest(cols);
      WriteOneSnaps(style, rest, s1, r.1, compress, level, cacheControl);
      OffNamesFirst(style, cols, s);
      if Offloaded(style, c, s) {
        MinusUnion(s.props, {c.name}, OffNames(style, rest, s1));
      } else {
        assert OffNames(style, rest, s1) + {} == OffNames(style, rest, s1);
      }
    }
  }

  /** After a one-entity write each offloaded value is stored at the
      entity's read path in its column's bucket, and the blob that a column
      which is not offloaded would be read from is as it was. */
  lemma {:induction false} WriteOneBlobs(style: IdStyle, cols: ColumnConfigs, s: Snap, objects: Objects,
                                         compress: Option<string>, level: Option<int>, cacheControl: string)
    requires Independent(cols) && ReadPathsOk(style, cols, s)
    ensures var w := WriteSpec(style, cols, [s], objects, compress, level, cacheControl);
            forall j :: 0 <= j < |cols| ==>
              Fetch(w.objects, cols[j].bucket, ReadPath(style, cols[j], s)) ==
              if Offloaded(style, cols[j], s) then Fetched(s.props[cols[j].name])
              else Fetch(objects, cols[j].bucket, ReadPath(style, cols[j], s))
    decreases |cols|
  {
    if |cols| > 0 {
      var c, rest := cols[0], cols[1..];
      var s1 := StripFirst(style, c, s);
      WriteFirstColumn(style, c, s, objects, compress, level, cacheControl);
      WriteFirstBlobs(style, c, s, objects, compress, level, cacheControl);
      var r := WriteColumn(style, c, [s], objects, compress, level, cacheControl).value;
      StripFirstKeeps(style, cols, s);
      IndependentRest(cols);
      WriteOneBlobs(style, rest, s1, r.1, compress, level, cacheControl);
      var w := WriteSpec(style, rest, [s1], r.1, compress, level, cacheControl);
      assert WriteSpec(style, cols, [s], objects, compress, level, cacheControl) == w;
      WriteOtherBucket(style, rest, [s1], r.1, compress, level, cacheControl, c.bucket, ReadPath(style, c, s));
      forall j | 0 <= j < |cols|
        ensures Fetch(w.objects, cols[j].bucket, ReadPath(style, cols[j], s)) ==
                if Offloaded(style, cols[j], s) then Fetched(s.props[cols[j].name])
                else Fetch(objects, cols[j].bucket, ReadPath(style, cols[j], s))
      {
        if j > 0 {
          assert rest[j - 1] == cols[j];
        }
      }
    }
  }

  /** The entity after the first column of its read. */
  function ReadFirst(style: IdStyle, c: Column, r: Snap, objects: Objects): Snap
    requires EntityPath(style, c.pathElements, r.key, r.props, false).Ok?
  {
    Snap(r.key, Merge(r.props, c.name, Fetch(objects, c.bucket, ReadPath(style, c, r))))
  }

  /** One column of a one-entity read, when its read path does not raise. */
  lemma ReadColumnOne(style: IdStyle, c: Column, r: Snap, objects: Objects)
    requires EntityPath(style, c.pathElements, r.key, r.props, false).Ok?
    ensures ReadColumn(style, c, [r], objects) == Ok([ReadFirst(style, c, r, objects)])
  {
    ReadColumnExact(style, c, [r], objects);
    assert [r][0] == r;
    var next := ReadColumn(style, c, [r], objects).value;
    assert next == [next[0]];
  }

  /** A one-entity read, column by column: each column whose fetch finds
      content sets that attribute; every other attribute is as it was. */
  lemma {:induction false} ReadOne(style: IdStyle, cols: ColumnConfigs, r: Snap, objects: Objects)
    requires Independent(cols) && ReadPathsOk(style, cols, r)
    ensures var out := ReadSpec(style, cols, [r], objects);
            out.error == None && |out.snaps| == 1 && out.snaps[0].key == r.key &&
            (forall j :: 0 <= j < |cols| ==>
               var f := Fetch(objects, cols[j].bucket, ReadPath(style, cols[j], r));
               (f.Fetched? ==> cols[j].name in out.snaps[0].props && out.snaps[0].props[cols[j].name] == f.content) &&
               (f.FetchError? ==> SameAt(out.snaps[0].props, r.props, cols[j].name))) &&
            forall a :: !IsColumn(cols, a) ==> SameAt(out.snaps[0].props, r.props, a)
    decreases |cols|
  {
    if |cols| > 0 {
      var c, rest := cols[0], cols[1..];
      IndependentRest(cols);
      var r1 := ReadFirst(style, c, r, objects);
      ReadColumnOne(style, c, r, objects);
      ReadSpecStep(style, cols, 0, [r], objects);
      assert cols[0..] == cols;
      assert forall a :: !IsColumn(cols, a) ==> SameAt(r.props, r1.props, a);
      ColumnEditKeepsPaths(style, cols, r.key, r.props, r1.props);
      assert ReadPathsOk(style, rest, r1);
      ReadOne(style, rest, r1, objects);
      var out := ReadSpec(style, rest, [r1], objects);
      assert forall a :: !IsColumn(cols, a) ==> !IsColumn(rest, a) && a != c.name;
      assert ReadSpec(style, cols, [r], objects) == out;
      forall j | 0 <= j < |cols|
        ensures var f := Fetch(objects, cols[j].bucket, ReadPath(style, cols[j], r));
                (f.Fetched? ==> cols[j].name in out.snaps[0].props && out.snaps[0].props[cols[j].name] == f.content) &&
                (f.FetchError? ==> SameAt(out.snaps[0].props, r.props, cols[j].name))
      {
        if j == 0 {
          assert !IsColumn(rest, c.name);
        } else {
          assert rest[j - 1] == cols[j];
          assert ReadPath(style, cols[j], r1) == ReadPath(style, cols[j], r);
        }
      }
    }
  }

  /** The attributes a one-entity read gives back, from what the write
      stored and what it stripped. */
  lemma Restored(style: IdStyle, cols: ColumnConfigs, s: Snap, objects: Objects, stored: Objects, p: Props)
    requires Independent(cols) && ReadPathsOk(style, cols, s)
    requires forall j :: 0 <= j < |cols| && !Offloaded(style, cols[j], s) ==>
               Fetch(objects, cols[j].bucket, ReadPath(style, cols[j], s)).FetchError?
    requires forall j :: 0 <= j < |cols| ==>
               Fetch(stored, cols[j].bucket, ReadPath(style, cols[j], s)) ==
               if Offloaded(style, cols[j], s) then Fetched(s.props[cols[j].name])
               else Fetch(objects, cols[j].bucket, ReadPath(style, cols[j], s))
    requires forall j :: 0 <= j < |cols| ==>
               var f := Fetch(stored, cols[j].bucket, ReadPath(style, cols[j], s));
               (f.Fetched? ==> cols[j].name in p && p[cols[j].name] == f.content) &&
               (f.FetchError? ==> SameAt(p, s.props - OffNames(style, cols, s), cols[j].name))
    requires forall a :: !IsColumn(cols, a) ==> SameAt(p, s.props - OffNames(style, cols, s), a)
    ensures p == s.props
  {
    var off := OffNames(style, cols, s);
    forall a ensures SameAt(p, s.props, a) {
      if IsColumn(cols, a) {
        var j :| 0 <= j < |cols| && cols[j].name == a;
        if !Offloaded(style, cols[j], s) {
          assert a !in off by {
            forall k | 0 <= k < |cols| && cols[k].name == a ensures !Offloaded(style, cols[k], s) {
              assert k == j;
            }
          }
        }
      } else {
        assert a !in off;
      }
    }
    MapsEqual(p, s.props);
  }

  /** Write then read with the same configuration gives the entity back,
      provided no blob is already stored where a column that is not
      offloaded would be looked up. */
  lemma WriteThenRead(style: IdStyle, cols: ColumnConfigs, s: Snap, objects: Objects,
                      compress: Option<string>, level: Option<int>, cacheControl: string)
    requires Independent(cols) && NoStaleBlobs(style, cols, s, objects)
    ensures var w := WriteSpec(style, cols, [s], objects, compress, level, cacheControl);
            w.error == None && ReadSpec(style, cols, w.snaps, w.objects) == ReadOutcome([s], None)
  {
    WriteOneSnaps(style, cols, s, objects, compress, level, cacheControl);
    WriteOneBlobs(style, cols, s, objects, compress, level, cacheControl);
    var w := WriteSpec(style, cols, [s], objects, compress, level, cacheControl);
    var r := Snap(s.key, s.props - OffNames(style, cols, s));
    assert forall a :: !IsColumn(cols, a) ==> SameAt(s.props, r.props, a);
    ColumnEditKeepsPaths(style, cols, s.key, s.props, r.props);
    assert forall j :: 0 <= j < |cols| ==> ReadPath(style, cols[j], r) == ReadPath(style, cols[j], s);
    ReadOne(style, cols, r, w.objects);
    Restored(style, cols, s, objects, w.objects, ReadSpec(style, cols, [r], w.objects).snaps[0].props);
  }

  /** A write does not delete blobs: when the entity does not offload a
      column (it lacks the attribute or a path element) but a blob is stored
      at that column's read path, reading the entity back sets the column to
      the stored content. */
  lemma StaleBlobReturns(style: IdStyle, cols: ColumnConfigs, s: Snap, objects: Objects,
                         compress: Option<string>, level: Option<int>, cacheControl: string, j: nat, v: Value)
    requires Independent(cols) && ReadPathsOk(style, cols, s)
    requires j < |cols| && !Offloaded(style, cols[j], s)
    requires Fetch(objects, cols[j].bucket, ReadPath(style, cols[j], s)) == Fetched(v)
    ensures var w := WriteSpec(style, cols, [s], objects, compress, level, cacheControl);
            var out := ReadSpec(style, cols, w.snaps, w.objects);
            w.error == None && out.error == None && |out.snaps| == 1 &&
            cols[j].name in out.snaps[0].props && out.snaps[0].props[cols[j].name] == v
  {
    WriteOneSnaps(style, cols, s, objects, compress, level, cacheControl);
    WriteOneBlobs(style, cols, s, objects, compress, level, cacheControl);
    var w := WriteSpec(style, cols, [s], objects, compress, level, cacheControl);
    var r := Snap(s.key, s.props - OffNames(style, cols, s));
    assert forall a :: !IsColumn(cols, a) ==> SameAt(s.props, r.props, a);
    ColumnEditKeepsPaths(style, cols, s.key, s.props, r.props);
    assert ReadPath(style, cols[j], r) == ReadPath(style, cols[j], s);
    ReadOne(style, cols, r, w.objects);
  }

  lemma MapsEqual(p: Props, q: Props)
    requires forall a :: SameAt(p, q, a)
    ensures p == q
  {
    forall a ensures (a in p <==> a in q) && (a in p ==> p[a] == q[a]) {
      assert SameAt(p, q, a);
    }
  }
}
