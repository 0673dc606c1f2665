/** The data model shared by both client variants: attribute values, keys,
    column configuration, and the in-place mutable Entity. */
module Values {

  datatype Option<T> = None | Some(value: T)

  /** The exceptions that escape the coordinator: the TypeError of Python's
      str.join on a non-string item, the decode error of json.loads on a
      configuration record it cannot read, and the ValueError the
      datastore client's allocate_ids raises for a base key that is not
      partial. */
  datatype Error = TypeError | DecodeError | ValueError

  datatype Result<T> = Ok(value: T) | Err(error: Error)

  /** One offloaded column: its attribute name, the blob location
      ("bucket_path") and the attribute names that make up the blob path
      ("path_elements"). */
  datatype Column = Column(name: string, bucket: string, pathElements: seq<string>)

  /** The decoded configuration object, in the insertion order of its keys. */
  type ColumnConfigs = seq<Column>

  /** An attribute value. `Json(columns)` stands for the text that json.dumps
      produced from a column configuration; the model keeps the object it
      encodes instead of the characters. */
  datatype Value =
    | Text(s: string)
    | Int(i: int)
    | Bool(b: bool)
    | Bytes(data: seq<bv8>)
    | Null
    | Json(columns: ColumnConfigs)

  /** A datastore key: namespace, kind, and an optional numeric id or name. */
  datatype Key = Key(namespace: Option<string>, kind: string, id: Option<int>, name: Option<string>)

  /** `key.is_partial`: the key has neither an id nor a name yet. */
  predicate Partial(k: Key) {
    k.id.None? && k.name.None?
  }

  type Props = map<string, Value>

  /** The value of one entity at one moment: its key and its attributes. */
  datatype Snap = Snap(key: Key, props: Props)

  /** datastore.Entity: a key and a dictionary of attributes, both updated in place. */
  class Entity {
    var key: Key
    var props: Props

    constructor (key: Key, props: Props)
      ensures this.key == key && this.props == props
    {
      this.key := key;
      this.props := props;
    }
  }

  /** No entity object occurs twice in the batch. */
  ghost predicate Distinct(es: seq<Entity>) {
    forall i, j :: 0 <= i < j < |es| ==> es[i] != es[j]
  }

  /** The current value of every entity of the batch, position by position. */
  ghost function Snapshot(es: seq<Entity>): (r: seq<Snap>)
    reads es
    ensures |r| == |es|
    ensures forall i :: 0 <= i < |es| ==> r[i] == Snap(es[i].key, es[i].props)
  {
    seq(|es|, i requires 0 <= i < |es| reads es => Snap(es[i].key, es[i].props))
  }

  /** The keys of a batch of values. */
  function KeysOf(snaps: seq<Snap>): (r: seq<Key>)
    ensures |r| == |snaps|
    ensures forall i :: 0 <= i < |snaps| ==> r[i] == snaps[i].key
  {
    seq(|snaps|, i requires 0 <= i < |snaps| => snaps[i].key)
  }

  /** The batch with its keys replaced, position by position. */
  function WithKeys(snaps: seq<Snap>, keys: seq<Key>): (r: seq<Snap>)
    requires |keys| == |snaps|
    ensures |r| == |snaps|
    ensures forall i :: 0 <= i < |snaps| ==> r[i] == Snap(keys[i], snaps[i].props)
  {
    seq(|snaps|, i requires 0 <= i < |snaps| => Snap(keys[i], snaps[i].props))
  }
}
