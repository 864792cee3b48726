/**
 * The slice of PHP's value model that the purge plugin's configuration
 * handling touches: scalar values, arrays keyed by strings, and the array
 * union operator `+`.
 */
module PhpArray {

  /** A PHP value. An associative array is a finite map from keys to values. */
  datatype Value =
    | Null
    | Bool(b: bool)
    | Int(i: int)
    | Str(s: string)
    | Arr(entries: map<string, Value>)

  /**
   * PHP's array union `left + right`: every entry of `left` is kept, and an
   * entry of `right` is added only when its key is absent from `left`.
   * Entries of `right` never overwrite entries of `left`.
   */
  function Union(left: map<string, Value>, right: map<string, Value>): (u: map<string, Value>)
    ensures u.Keys == left.Keys + right.Keys
    ensures forall k :: k in left ==> u[k] == left[k]
    ensures forall k :: k in right && k !in left ==> u[k] == right[k]
  {
    map k | k in left.Keys + right.Keys :: if k in left then left[k] else right[k]
  }

  /** A union whose right operand adds no new key leaves the left operand as it was. */
  lemma UnionAbsorbs(left: map<string, Value>, right: map<string, Value>)
    requires right.Keys <= left.Keys
    ensures Union(left, right) == left
  {
  }
}
