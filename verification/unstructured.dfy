/**
 * The loosely typed configuration tree the operator observes and persists
 * (`map[string]interface{}` decoded from JSON), as a tagged value.
 */
module Unstructured {
  import opened Results

  /** A decoded JSON value. Numbers are kept as integers; only their kind matters here. */
  datatype Value =
    | Null
    | Bool(b: bool)
    | Number(n: int)
    | Str(s: string)
    | List(items: seq<Value>)
    | Object(fields: map<string, Value>)

  /** A configuration document: the top-level object of the tree. */
  type Config = map<string, Value>

  /** `unstructured.NestedFieldCopy` along a one-segment path: the value under `key`, if any. */
  function NestedField(config: Config, key: string): Option<Value> {
    if key in config then Some(config[key]) else None
  }

  /** `unstructured.SetNestedField` along a one-segment path. */
  function SetNestedField(config: Config, key: string, v: Value): (r: Config)
    ensures NestedField(r, key) == Some(v)
    ensures forall k :: k != key ==> NestedField(r, k) == NestedField(config, k)
  {
    config[key := v]
  }

  /**
   * `configobserver.Pruned` for a one-segment path: a fresh document holding
   * the value under `key` when there is one, and nothing else.
   */
  function Pruned(config: Config, key: string): (r: Config)
    ensures r.Keys <= {key}
    ensures NestedField(r, key) == NestedField(config, key)
  {
    if key in config then map[key := config[key]] else map[]
  }

  /** Pruning twice is pruning once. */
  lemma {:induction false} PrunedIdempotent(config: Config, key: string)
    ensures Pruned(Pruned(config, key), key) == Pruned(config, key)
  {
  }
}
