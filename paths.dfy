/** The blob path of an entity for one column: the configured path-element
    values, then the key's id or name, joined by "/" (module function
    `_get_filespaths` of both client files). */
module Paths {
  import opened Values
  import opened Text

  /** How the key's `id_or_name` is appended: passed through `str()` (the
      current client) or appended as it is (the historical client). */
  datatype IdStyle = Stringified | Raw

  /** What read mode appends for a path element the entity does not have. */
  const NonExistent: string := "non_existent"

  const Sep: char := '/'

  /** `key.id_or_name`: the id if there is one, else the name, else None. */
  function IdOrName(k: Key): Value {
    if k.id.Some? then Int(k.id.value)
    else if k.name.Some? then Text(k.name.value)
    else Null
  }

  /** `str(key.id_or_name)`. */
  function IdString(k: Key): string {
    if k.id.Some? then IntToString(k.id.value)
    else if k.name.Some? then k.name.value
    else "None"
  }

  function IdElement(style: IdStyle, k: Key): Value {
    match style
    case Stringified => Text(IdString(k))
    case Raw => IdOrName(k)
  }

  /** `entity[element]`, with the sentinel in place of a KeyError. */
  function Element(props: Props, attr: string): Value {
    if attr in props then props[attr] else Text(NonExistent)
  }

  /** Some configured path element is not an attribute of the entity. */
  predicate Missing(pathElements: seq<string>, props: Props) {
    exists j :: 0 <= j < |pathElements| && pathElements[j] !in props
  }

  /** The list `elements` the path builder hands to "/".join. */
  function Elements(style: IdStyle, pathElements: seq<string>, key: Key, props: Props): (r: seq<Value>)
    ensures |r| == |pathElements| + 1
    ensures forall j :: 0 <= j < |pathElements| ==> r[j] == Element(props, pathElements[j])
    ensures r[|pathElements|] == IdElement(style, key)
  {
    seq(|pathElements|, j requires 0 <= j < |pathElements| => Element(props, pathElements[j]))
      + [IdElement(style, key)]
  }

  predicate AllText(vs: seq<Value>) {
    forall k :: 0 <= k < |vs| ==> vs[k].Text?
  }

  function Texts(vs: seq<Value>): (r: seq<string>)
    requires AllText(vs)
    ensures |r| == |vs| && forall k :: 0 <= k < |vs| ==> r[k] == vs[k].s
  {
    seq(|vs|, k requires 0 <= k < |vs| && AllText(vs) => vs[k].s)
  }

  /** `"/".join(vs)`: Python raises TypeError on any item that is not a str. */
  function JoinValues(vs: seq<Value>): Result<string> {
    if AllText(vs) then Ok(Join(Texts(vs), Sep)) else Err(TypeError)
  }

  /** The path of one entity: `None` in write mode when an element is
      missing (the join is then not evaluated), otherwise the join. */
  function EntityPath(style: IdStyle, pathElements: seq<string>, key: Key, props: Props, appendNone: bool)
    : Result<Option<string>>
  {
    if appendNone && Missing(pathElements, props) then Ok(None)
    else
      match JoinValues(Elements(style, pathElements, key, props))
      case Ok(p) => Ok(Some(p))
      case Err(e) => Err(e)
  }

  /** The list `_get_filespaths` returns for a batch, or the exception it raises. */
  function BatchPaths(style: IdStyle, pathElements: seq<string>, snaps: seq<Snap>, appendNone: bool)
    : Result<seq<Option<string>>>
  {
    if |snaps| == 0 then Ok([])
    else
      match BatchPaths(style, pathElements, snaps[..|snaps| - 1], appendNone)
      case Err(e) => Err(e)
      case Ok(ps) =>
        var last := snaps[|snaps| - 1];
        match EntityPath(style, pathElements, last.key, last.props, appendNone)
        case Err(e) => Err(e)
        case Ok(p) => Ok(ps + [p])
  }

  /** The batch raises exactly when the path of one of its entities does. */
  lemma {:induction false} BatchPathsOk(style: IdStyle, pathElements: seq<string>, snaps: seq<Snap>, appendNone: bool)
    ensures BatchPaths(style, pathElements, snaps, appendNone).Ok? <==>
            forall i :: 0 <= i < |snaps| ==> EntityPath(style, pathElements, snaps[i].key, snaps[i].props, appendNone).Ok?
  {
    if |snaps| > 0 {
      var init := snaps[..|snaps| - 1];
      BatchPathsOk(style, pathElements, init, appendNone);
      assert forall i :: 0 <= i < |init| ==> init[i] == snaps[i];
    }
  }

  /** A batch that does not raise holds each entity's path at its position. */
  lemma {:induction false} BatchPathsValues(style: IdStyle, pathElements: seq<string>, snaps: seq<Snap>, appendNone: bool)
    requires BatchPaths(style, pathElements, snaps, appendNone).Ok?
    ensures var ps := BatchPaths(style, pathElements, snaps, appendNone).value;
            |ps| == |snaps| &&
            forall i :: 0 <= i < |snaps| ==> EntityPath(style, pathElements, snaps[i].key, snaps[i].props, appendNone) == Ok(ps[i])
  {
    if |snaps| > 0 {
      var init := snaps[..|snaps| - 1];
      BatchPathsValues(style, pathElements, init, appendNone);
      assert forall i :: 0 <= i < |init| ==> init[i] == snaps[i];
    }
  }

  /** Both of the above. */
  lemma BatchPathsAligned(style: IdStyle, pathElements: seq<string>, snaps: seq<Snap>, appendNone: bool)
    ensures BatchPaths(style, pathElements, snaps, appendNone).Ok? <==>
            forall i :: 0 <= i < |snaps| ==> EntityPath(style, pathElements, snaps[i].key, snaps[i].props, appendNone).Ok?
    ensures BatchPaths(style, pathElements, snaps, appendNone).Ok? ==>
            var ps := BatchPaths(style, pathElements, snaps, appendNone).value;
            |ps| == |snaps| &&
            forall i :: 0 <= i < |snaps| ==> ps[i] == EntityPath(style, pathElements, snaps[i].key, snaps[i].props, appendNone).value
  {
    BatchPathsOk(style, pathElements, snaps, appendNone);
    if BatchPaths(style, pathElements, snaps, appendNone).Ok? {
      BatchPathsValues(style, pathElements, snaps, appendNone);
    }
  }

  /** Once the path of some entity raises, the whole batch raises with it. */
  lemma {:induction false} BatchPathsErrSticks(style: IdStyle, pathElements: seq<string>, snaps: seq<Snap>, n: nat, appendNone: bool)
    requires n <= |snaps| && BatchPaths(style, pathElements, snaps[..n], appendNone).Err?
    ensures BatchPaths(style, pathElements, snaps, appendNone) == BatchPaths(style, pathElements, snaps[..n], appendNone)
    decreases |snaps|
  {
    if |snaps| == n {
      assert snaps[..n] == snaps;
    } else {
      var init := snaps[..|snaps| - 1];
      assert init[..n] == snaps[..n];
      BatchPathsErrSticks(style, pathElements, init, n, appendNone);
    }
  }

  /** The inner loop of `_get_filespaths`: the elements of one entity's
      path, and whether one of its path elements is missing. */
  method PathElements(style: IdStyle, e: Entity, pathElements: seq<string>)
    returns (elements: seq<Value>, nonExistent: bool)
    ensures elements == Elements(style, pathElements, e.key, e.props)
    ensures nonExistent == Missing(pathElements, e.props)
  {
    nonExistent := false;
    elements := [];
    var j := 0;
    while j < |pathElements|
      invariant 0 <= j <= |pathElements| && |elements| == j
      invariant forall k :: 0 <= k < j ==> elements[k] == Element(e.props, pathElements[k])
      invariant nonExistent <==> exists k :: 0 <= k < j && pathElements[k] !in e.props
    {
      if pathElements[j] in e.props {
        elements := elements + [e.props[pathElements[j]]];
      } else {
        elements := elements + [Text(NonExistent)];
        nonExistent := true;
      }
      j := j + 1;
    }
    elements := elements + [IdElement(style, e.key)];
  }

  /** The batch of paths grows by one entity's path at a time. */
  lemma BatchPathsStep(style: IdStyle, pathElements: seq<string>, snaps: seq<Snap>, i: nat, appendNone: bool)
    requires i < |snaps|
    ensures var path := EntityPath(style, pathElements, snaps[i].key, snaps[i].props, appendNone);
            var before := BatchPaths(style, pathElements, snaps[..i], appendNone);
            BatchPaths(style, pathElements, snaps[..i + 1], appendNone) ==
            if before.Err? then before
            else if path.Err? then Err(path.error)
            else Ok(before.value + [path.value])
  {
    assert snaps[..i + 1][..i] == snaps[..i];
  }

  /** `_get_filespaths(entities, path_elements, append_none)`: one path per
      entity, built attribute by attribute. */
  method GetFilesPaths(style: IdStyle, entities: seq<Entity>, pathElements: seq<string>, appendNone: bool)
    returns (files: Result<seq<Option<string>>>)
    ensures files == BatchPaths(style, pathElements, Snapshot(entities), appendNone)
  {
    ghost var snaps := Snapshot(entities);
    var paths: seq<Option<string>> := [];
    var i := 0;
    while i < |entities|
      invariant 0 <= i <= |entities|
      invariant BatchPaths(style, pathElements, snaps[..i], appendNone) == Ok(paths)
    {
      var e := entities[i];
      var elements, nonExistent := PathElements(style, e, pathElements);
      ghost var path := EntityPath(style, pathElements, e.key, e.props, appendNone);
      BatchPathsStep(style, pathElements, snaps, i, appendNone);
      if appendNone && nonExistent {
        paths := paths + [None];
      } else {
        var joined := JoinValues(elements);
        if joined.Err? {
          BatchPathsErrSticks(style, pathElements, snaps, i + 1, appendNone);
          return Err(joined.error);
        }
        paths := paths + [Some(joined.value)];
      }
      i := i + 1;
    }
    assert snaps[..i] == snaps;
    return Ok(paths);
  }

  /** Read mode always yields a path (or raises); write mode yields None
      exactly for an entity that lacks a path element. */
  lemma PathPresence(style: IdStyle, pathElements: seq<string>, key: Key, props: Props)
    ensures EntityPath(style, pathElements, key, props, false).Ok? ==>
            EntityPath(style, pathElements, key, props, false).value.Some?
    ensures EntityPath(style, pathElements, key, props, true) == Ok(None) <==> Missing(pathElements, props)
  {
  }

  /** A batch of read-mode paths has no None in it. */
  lemma {:induction false} ReadPathsPresent(style: IdStyle, pathElements: seq<string>, snaps: seq<Snap>)
    requires BatchPaths(style, pathElements, snaps, false).Ok?
    ensures forall i :: 0 <= i < |BatchPaths(style, pathElements, snaps, false).value| ==>
              BatchPaths(style, pathElements, snaps, false).value[i].Some?
  {
    BatchPathsAligned(style, pathElements, snaps, false);
    forall i | 0 <= i < |snaps|
      ensures EntityPath(style, pathElements, snaps[i].key, snaps[i].props, false).value.Some?
    {
      PathPresence(style, pathElements, snaps[i].key, snaps[i].props);
    }
  }

  /** The "/"-separated segment an element contributes. */
  function Segment(props: Props, attr: string): string
    requires attr in props ==> props[attr].Text?
  {
    if attr in props then props[attr].s else NonExistent
  }

  /** No present element and no name contains the separator. */
  predicate SlashFree(style: IdStyle, pathElements: seq<string>, key: Key, props: Props) {
    AllText(Elements(style, pathElements, key, props)) &&
    forall k :: 0 <= k < |pathElements| + 1 ==> Sep !in Elements(style, pathElements, key, props)[k].s
  }

  /** A path splits back into the element values in their configured order,
      with the sentinel for a missing one, followed by the id or name. */
  lemma PathSegments(style: IdStyle, pathElements: seq<string>, key: Key, props: Props, appendNone: bool)
    requires SlashFree(style, pathElements, key, props)
    requires EntityPath(style, pathElements, key, props, appendNone).Ok?
    requires EntityPath(style, pathElements, key, props, appendNone).value.Some?
    ensures var parts := Split(EntityPath(style, pathElements, key, props, appendNone).value.value, Sep);
            |parts| == |pathElements| + 1 &&
            (forall j :: 0 <= j < |pathElements| ==> parts[j] == Segment(props, pathElements[j])) &&
            parts[|pathElements|] == IdElement(style, key).s
  {
    var vs := Elements(style, pathElements, key, props);
    SplitJoin(Texts(vs), Sep);
  }

  /** Under str(), a path ends in the decimal id after its last "/",
      whatever the element values contain. */
  lemma PathEndsWithId(pathElements: seq<string>, key: Key, props: Props, appendNone: bool)
    requires key.id.Some?
    requires EntityPath(Stringified, pathElements, key, props, appendNone).Ok?
    requires EntityPath(Stringified, pathElements, key, props, appendNone).value.Some?
    ensures After(EntityPath(Stringified, pathElements, key, props, appendNone).value.value, Sep) == IntToString(key.id.value)
  {
    var vs := Elements(Stringified, pathElements, key, props);
    assert AllText(vs);
    var parts := Texts(vs);
    assert parts[|parts| - 1] == IntToString(key.id.value);
    AfterJoin(parts, Sep);
  }

  /** Entities with different numeric ids never share a path (current
      client): the path ends in str(id), after its last "/". */
  lemma DistinctIdsDistinctPaths(pathElements: seq<string>, k1: Key, p1: Props, k2: Key, p2: Props, appendNone: bool, path: string)
    requires k1.id.Some? && k2.id.Some? && k1.id != k2.id
    requires EntityPath(Stringified, pathElements, k1, p1, appendNone) == Ok(Some(path))
    ensures EntityPath(Stringified, pathElements, k2, p2, appendNone) != Ok(Some(path))
  {
    if EntityPath(Stringified, pathElements, k2, p2, appendNone) == Ok(Some(path)) {
      PathEndsWithId(pathElements, k1, p1, appendNone);
      PathEndsWithId(pathElements, k2, p2, appendNone);
      IntToStringInjective(k1.id.value, k2.id.value);
    }
  }

  /** Element values are joined without str(): a present element that is not
      a string makes the path raise TypeError whenever the join runs. */
  lemma NonTextElementRaises(style: IdStyle, pathElements: seq<string>, key: Key, props: Props, appendNone: bool, j: nat)
    requires j < |pathElements| && pathElements[j] in props && !props[pathElements[j]].Text?
    requires !(appendNone && Missing(pathElements, props))
    ensures EntityPath(style, pathElements, key, props, appendNone) == Err(TypeError)
  {
    assert !Elements(style, pathElements, key, props)[j].Text?;
  }

  /** With str(id_or_name), string-valued elements always give a path. */
  lemma StringifiedPathOk(pathElements: seq<string>, key: Key, props: Props, appendNone: bool)
    requires forall j :: 0 <= j < |pathElements| && pathElements[j] in props ==> props[pathElements[j]].Text?
    ensures EntityPath(Stringified, pathElements, key, props, appendNone).Ok?
  {
    var vs := Elements(Stringified, pathElements, key, props);
    assert AllText(vs) by {
      forall k | 0 <= k < |vs| ensures vs[k].Text? {
        if k < |pathElements| {
          assert vs[k] == Element(props, pathElements[k]);
        }
      }
    }
  }

  /** Without str(), a numeric id, or a key with neither id nor name, makes
      the join raise TypeError whenever it runs (historical client). */
  lemma RawIdRaises(pathElements: seq<string>, key: Key, props: Props, appendNone: bool)
    requires key.id.Some? || key.name.None?
    requires !(appendNone && Missing(pathElements, props))
    ensures EntityPath(Raw, pathElements, key, props, appendNone) == Err(TypeError)
  {
    assert !Elements(Raw, pathElements, key, props)[|pathElements|].Text?;
  }
}
