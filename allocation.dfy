/** `_allocate_ids`: before any path is built, every entity of the batch
    whose key has no numeric id is given a key allocated by the metadata
    store, all of them derived from the first such key. */
module Allocation {
  import opened Values
  import opened Stores

  /** The positions of the entities whose key has no id, in batch order
      (the list `unnamed_entities`). */
  function Unnamed(keys: seq<Key>): (r: seq<nat>)
    ensures forall k :: 0 <= k < |r| ==> r[k] < |keys| && keys[r[k]].id.None?
    ensures forall k, l :: 0 <= k < l < |r| ==> r[k] < r[l]
    ensures forall i :: 0 <= i < |keys| && keys[i].id.None? ==> i in r
  {
    if |keys| == 0 then []
    else
      var n := |keys| - 1;
      Unnamed(keys[..n]) + if keys[n].id.None? then [n] else []
  }

  /** The keys after the k-th position of `positions` receives the k-th
      new key, for every k in turn (`entity.key = key_id` over the zip). */
  function Reassign(keys: seq<Key>, positions: seq<nat>, newKeys: seq<Key>): (r: seq<Key>)
    requires |newKeys| == |positions|
    requires forall k :: 0 <= k < |positions| ==> positions[k] < |keys|
    ensures |r| == |keys|
  {
    if |positions| == 0 then keys
    else
      var n := |positions| - 1;
      Reassign(keys, positions[..n], newKeys[..n])[positions[n] := newKeys[n]]
  }

  /** The keys of the batch after `_allocate_ids`, when the store's next id is `next`. */
  function Allocated(keys: seq<Key>, next: int): (r: seq<Key>)
    ensures |r| == |keys|
  {
    var u := Unnamed(keys);
    if |u| == 0 then keys else Reassign(keys, u, AllocatedKeys(keys[u[0]], next, |u|))
  }

  /** The batch after `_allocate_ids`, the store's next id afterwards, and
      the exception, if any: `allocate_ids` raises ValueError when the first
      key without an id has a name (it is not partial), and then nothing
      changes. */
  datatype Allocation = Allocation(snaps: seq<Snap>, nextId: int, error: Option<Error>)

  function AllocateSpec(snaps: seq<Snap>, next: int): (r: Allocation)
    ensures |r.snaps| == |snaps| && forall i :: 0 <= i < |snaps| ==> r.snaps[i].props == snaps[i].props
    ensures r.error.Some? ==> r == Allocation(snaps, next, Some(ValueError))
  {
    var keys := KeysOf(snaps);
    var u := Unnamed(keys);
    if |u| > 0 && !Partial(keys[u[0]]) then Allocation(snaps, next, Some(ValueError))
    else Allocation(WithKeys(snaps, Allocated(keys, next)), next + |u|, None)
  }

  /** The allocation raises exactly when the first entity whose key has no
      id has a name; otherwise every key has an id afterwards. */
  lemma AllocateRaises(snaps: seq<Snap>, next: int)
    ensures AllocateSpec(snaps, next).error.Some? <==>
            exists i :: 0 <= i < |snaps| && snaps[i].key.id.None? && snaps[i].key.name.Some? &&
                        forall j :: 0 <= j < i ==> snaps[j].key.id.Some?
    ensures AllocateSpec(snaps, next).error.None? ==>
              forall i :: 0 <= i < |snaps| ==> AllocateSpec(snaps, next).snaps[i].key.id.Some?
  {
    var keys := KeysOf(snaps);
    var u := Unnamed(keys);
    if |u| > 0 {
      var f := u[0];
      assert keys[f] == snaps[f].key;
      forall j | 0 <= j < f
        ensures snaps[j].key.id.Some?
      {
        assert keys[j] == snaps[j].key;
      }
      if AllocateSpec(snaps, next).error.None? {
        forall i | 0 <= i < |snaps| && snaps[i].key.id.None? && snaps[i].key.name.Some?
          ensures exists j :: 0 <= j < i && snaps[j].key.id.None?
        {
          assert keys[i] == snaps[i].key;
        }
      }
    }
    AllocatedComplete(keys, next);
  }

  /** A single entity whose key has an id or no name is allocated without
      error, and has an id afterwards. */
  lemma AllocateOne(s: Snap, next: int)
    requires !(s.key.id.None? && s.key.name.Some?)
    ensures var a := AllocateSpec([s], next);
            a.error.None? && a.snaps[0].key.id.Some? && a.snaps[0].props == s.props
  {
    AllocateRaises([s], next);
  }

  /** Each listed position gets its allocated key; every other key is kept. */
  lemma {:induction false} ReassignExact(keys: seq<Key>, positions: seq<nat>, newKeys: seq<Key>)
    requires |newKeys| == |positions|
    requires forall k :: 0 <= k < |positions| ==> positions[k] < |keys|
    requires forall k, l :: 0 <= k < l < |positions| ==> positions[k] < positions[l]
    ensures var r := Reassign(keys, positions, newKeys);
            (forall k :: 0 <= k < |positions| ==> r[positions[k]] == newKeys[k]) &&
            (forall i :: 0 <= i < |keys| && i !in positions ==> r[i] == keys[i])
  {
    if |positions| > 0 {
      var n := |positions| - 1;
      var init := positions[..n];
      ReassignExact(keys, init, newKeys[..n]);
      assert forall k :: 0 <= k < n ==> init[k] == positions[k];
      forall i | 0 <= i < |keys| && i !in positions
        ensures Reassign(keys, positions, newKeys)[i] == keys[i]
      {
        assert i !in init;
      }
    }
  }

  /** Keys that have an id are kept; the k-th key without one (in batch
      order) becomes the store's key `next + k`, derived from the first key
      without an id. */
  lemma AllocatedExact(keys: seq<Key>, next: int)
    ensures var r := Allocated(keys, next);
            var u := Unnamed(keys);
            (forall i :: 0 <= i < |keys| && keys[i].id.Some? ==> r[i] == keys[i]) &&
            (forall k :: 0 <= k < |u| ==> r[u[k]] == AllocatedKey(keys[u[0]], next + k))
  {
    var u := Unnamed(keys);
    if |u| > 0 {
      ReassignExact(keys, u, AllocatedKeys(keys[u[0]], next, |u|));
      assert forall i :: 0 <= i < |keys| && keys[i].id.Some? ==> forall k :: 0 <= k < |u| ==> u[k] != i;
    }
  }

  /** The rank of a key without id among the keys without id, and the key it receives. */
  lemma AllocatedAt(keys: seq<Key>, next: int, i: nat) returns (k: nat)
    requires i < |keys| && keys[i].id.None?
    ensures k < |Unnamed(keys)| && Unnamed(keys)[k] == i
    ensures Allocated(keys, next)[i] == AllocatedKey(keys[Unnamed(keys)[0]], next + k)
  {
    var u := Unnamed(keys);
    AllocatedExact(keys, next);
    assert i in u;
    k :| 0 <= k < |u| && u[k] == i;
  }

  /** Afterwards every key of the batch has an id, and the ids handed out
      are pairwise distinct and lie in [next, next + number of keys without id). */
  lemma AllocatedComplete(keys: seq<Key>, next: int)
    ensures var r := Allocated(keys, next);
            (forall i :: 0 <= i < |keys| ==> r[i].id.Some?) &&
            (forall i :: 0 <= i < |keys| && keys[i].id.None? ==>
               next <= r[i].id.value < next + |Unnamed(keys)|) &&
            (forall i, j :: 0 <= i < j < |keys| && keys[i].id.None? && keys[j].id.None? ==> r[i].id != r[j].id)
  {
    var r := Allocated(keys, next);
    forall i | 0 <= i < |keys|
      ensures r[i].id.Some? && (keys[i].id.None? ==> next <= r[i].id.value < next + |Unnamed(keys)|)
    {
      if keys[i].id.None? {
        var k := AllocatedAt(keys, next, i);
      } else {
        AllocatedExact(keys, next);
      }
    }
    forall i, j | 0 <= i < j < |keys| && keys[i].id.None? && keys[j].id.None?
      ensures r[i].id != r[j].id
    {
      var k := AllocatedAt(keys, next, i);
      var l := AllocatedAt(keys, next, j);
      assert r[i].id == Some(next + k) && r[j].id == Some(next + l);
    }
  }

  /** What allocation does to a key that has a name but no id, and to a key
      of another kind: the new key carries the first unnamed key's namespace
      and kind and no name. */
  lemma AllocatedFromFirstBase(keys: seq<Key>, next: int, i: nat)
    requires i < |keys| && keys[i].id.None?
    ensures var r := Allocated(keys, next);
            var base := keys[Unnamed(keys)[0]];
            r[i].namespace == base.namespace && r[i].kind == base.kind && r[i].name.None?
  {
    var k := AllocatedAt(keys, next, i);
  }

  lemma {:induction false} NoUnnamed(keys: seq<Key>)
    requires forall i :: 0 <= i < |keys| ==> keys[i].id.Some?
    ensures Unnamed(keys) == []
  {
    if |keys| > 0 {
      NoUnnamed(keys[..|keys| - 1]);
    }
  }

  /** A batch whose keys all have ids is left alone and allocates nothing. */
  lemma CompleteBatchUnchanged(snaps: seq<Snap>, next: int)
    requires forall i :: 0 <= i < |snaps| ==> snaps[i].key.id.Some?
    ensures AllocateSpec(snaps, next) == Allocation(snaps, next, None)
  {
    var keys := KeysOf(snaps);
    NoUnnamed(keys);
    assert WithKeys(snaps, keys) == snaps;
  }

  /** The list comprehension of `_allocate_ids`, as positions. */
  method UnnamedPositions(entities: seq<Entity>) returns (unnamed: seq<nat>)
    ensures unnamed == Unnamed(KeysOf(Snapshot(entities)))
  {
    ghost var keys := KeysOf(Snapshot(entities));
    unnamed := [];
    var i := 0;
    while i < |entities|
      invariant 0 <= i <= |entities| && unnamed == Unnamed(keys[..i])
    {
      assert keys[..i + 1][..i] == keys[..i];
      if entities[i].key.id.None? {
        unnamed := unnamed + [i];
      }
      i := i + 1;
    }
    assert keys[..i] == keys;
  }

  /** The loop `for entity, key_id in zip(unnamed_entities, ids): entity.key = key_id`. */
  method AssignKeys(entities: seq<Entity>, positions: seq<nat>, newKeys: seq<Key>)
    requires Distinct(entities) && |newKeys| == |positions|
    requires forall k :: 0 <= k < |positions| ==> positions[k] < |entities|
    modifies entities
    ensures Snapshot(entities) ==
            WithKeys(old(Snapshot(entities)), Reassign(KeysOf(old(Snapshot(entities))), positions, newKeys))
  {
    ghost var pre := Snapshot(entities);
    ghost var keys := KeysOf(pre);
    var k := 0;
    while k < |positions|
      invariant 0 <= k <= |positions|
      invariant forall j :: 0 <= j < |entities| ==>
                  entities[j].props == pre[j].props && entities[j].key == Reassign(keys, positions[..k], newKeys[..k])[j]
    {
      assert positions[..k + 1][..k] == positions[..k] && newKeys[..k + 1][..k] == newKeys[..k];
      entities[positions[k]].key := newKeys[k];
      k := k + 1;
    }
    assert positions[..k] == positions && newKeys[..k] == newKeys;
  }
}
