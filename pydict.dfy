/** Python's `dict`: a finite map that remembers the order in which its keys
    were first inserted. Iteration follows `keys`. */
module PyDict {

  datatype Dict<K, V> = Dict(keys: seq<K>, entries: map<K, V>)

  ghost predicate Distinct<K>(s: seq<K>)
  {
    forall i, j :: 0 <= i < j < |s| ==> s[i] != s[j]
  }

  /** Every key is listed exactly once, and only keys are listed. */
  ghost predicate Valid<K(!new), V>(d: Dict<K, V>)
  {
    Distinct(d.keys) && (forall k :: k in d.entries <==> k in d.keys)
  }

  function Empty<K(!new), V>(): (d: Dict<K, V>)
    ensures Valid(d) && d.entries == map[]
  {
    Dict([], map[])
  }

  /** `d[k] = v`: a new key goes to the end of the order, an existing key keeps
      its place. */
  function Put<K(==,!new), V>(d: Dict<K, V>, k: K, v: V): Dict<K, V>
  {
    if k in d.entries then Dict(d.keys, d.entries[k := v])
    else Dict(d.keys + [k], d.entries[k := v])
  }

  /** Insertion keeps every key listed exactly once. */
  lemma PutValid<K(!new), V>(d: Dict<K, V>, k: K, v: V)
    requires Valid(d)
    ensures Valid(Put(d, k, v))
  {
  }
}
