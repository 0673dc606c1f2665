/** The column configuration: one record per namespace in the metadata
    store, decoded on first use and then kept in the client's `_config`
    dictionary for the client's lifetime. */
module Config {
  import opened Values

  /** The key name of the configuration record, and the key of the
      configuration object inside `_config`. */
  const ColumnConfigKeyName: string := "column"

  /** The `_config` attribute: None until first use, then a dictionary that
      holds the decoded configuration under "column" (or nothing, when
      decoding raised). */
  type ConfigCache = Option<map<string, ColumnConfigs>>

  /** f"{namespace}": Python formats a missing namespace as "None". */
  function NamespaceText(namespace: Option<string>): string {
    if namespace.Some? then namespace.value else "None"
  }

  /** `key(f"{namespace}_config", "column", namespace=namespace)`. */
  function ConfigKey(namespace: Option<string>): (k: Key)
    ensures k.namespace == namespace && k.id.None? && k.name == Some(ColumnConfigKeyName)
    ensures k.kind == NamespaceText(namespace) + "_config"
  {
    Key(namespace, NamespaceText(namespace) + "_config", None, Some(ColumnConfigKeyName))
  }

  /** The attributes `add_config(config)` stores: the JSON text of the configuration. */
  function ConfigRecord(cfg: ColumnConfigs): Props {
    map["value" := Json(cfg)]
  }

  /** `json.loads(record.get("value", "{}"))`. */
  function Decode(record: Props): Result<ColumnConfigs> {
    if "value" !in record then Ok([])
    else match record["value"]
      case Json(cfg) => Ok(cfg)
      case _ => Err(DecodeError)
  }

  /** `_read_config`: the configuration of the namespace, empty when there
      is no record (the IndexError branch), or the decode error. */
  function LoadConfig(records: map<Key, Props>, namespace: Option<string>): Result<ColumnConfigs> {
    if ConfigKey(namespace) in records then Decode(records[ConfigKey(namespace)]) else Ok([])
  }

  /** What reading the `config` property returns, and `_config` afterwards. */
  datatype Access = Access(result: Result<map<string, ColumnConfigs>>, cache: ConfigCache)

  /** The `config` property: a cached dictionary is returned as it is;
      otherwise `_config` becomes {} and `_read_config` fills it in, and a
      decode error escapes with `_config` left as {}. */
  function ConfigAccess(cache: ConfigCache, records: map<Key, Props>, namespace: Option<string>): Access {
    if cache.Some? then Access(Ok(cache.value), cache)
    else match LoadConfig(records, namespace)
      case Ok(cfg) => Access(Ok(map[ColumnConfigKeyName := cfg]), Some(map[ColumnConfigKeyName := cfg]))
      case Err(e) => Access(Err(e), Some(map[]))
  }

  /** `config.get("column", {})`. */
  function ColumnsOf(config: map<string, ColumnConfigs>): ColumnConfigs {
    if ColumnConfigKeyName in config then config[ColumnConfigKeyName] else []
  }

  /** The first use of `config` fills `_config` for good: every later use
      returns that dictionary without touching the store, whatever the store
      holds by then. */
  lemma AccessCaches(cache: ConfigCache, records: map<Key, Props>, later: map<Key, Props>, namespace: Option<string>)
    ensures var a := ConfigAccess(cache, records, namespace);
            a.cache.Some? &&
            (a.result.Ok? ==> a.result.value == a.cache.value) &&
            ConfigAccess(a.cache, later, namespace) == Access(Ok(a.cache.value), a.cache)
  {
  }

  /** A fresh client sees the configuration `add_config` stored, under "column". */
  lemma AddThenLoad(records: map<Key, Props>, namespace: Option<string>, cfg: ColumnConfigs)
    ensures var a := ConfigAccess(None, records[ConfigKey(namespace) := ConfigRecord(cfg)], namespace);
            a.result.Ok? && ColumnsOf(a.result.value) == cfg
  {
  }

  /** Without a configuration record, no column is offloaded. */
  lemma NoRecordNoColumns(records: map<Key, Props>, namespace: Option<string>)
    requires ConfigKey(namespace) !in records
    ensures var a := ConfigAccess(None, records, namespace);
            a.result.Ok? && ColumnsOf(a.result.value) == []
  {
  }

  /** A record that does not decode raises on first use and leaves `_config`
      as {}: every later use succeeds with no columns at all. */
  lemma DecodeErrorPoisons(records: map<Key, Props>, later: map<Key, Props>, namespace: Option<string>)
    requires LoadConfig(records, namespace).Err?
    ensures var a := ConfigAccess(None, records, namespace);
            a.result == Err(DecodeError) &&
            var b := ConfigAccess(a.cache, later, namespace);
            b.result.Ok? && ColumnsOf(b.result.value) == []
  {
  }

  /** Clients on different namespaces use different configuration records. */
  lemma ConfigKeysPerNamespace(n1: Option<string>, n2: Option<string>)
    requires n1 != n2
    ensures ConfigKey(n1) != ConfigKey(n2)
  {
  }
}
