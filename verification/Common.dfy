/** Datatypes shared by the component models. */
module Common {
  datatype Option<+T> = None | Some(value: T)

  /** The sequence without the element at position `i`. */
  function RemoveAt<T>(s: seq<T>, i: nat): (r: seq<T>)
    requires i < |s|
    ensures |r| == |s| - 1
  {
    s[..i] + s[i + 1..]
  }

  ghost predicate Distinct<T>(s: seq<T>) {
    forall i, j :: 0 <= i < j < |s| ==> s[i] != s[j]
  }

  /** Maps that agree except on a key that only one of them has. */
  lemma OneMore<K, V>(m: map<K, V>, n: map<K, V>, k: K, v: V)
    requires k !in m && k in n && n[k] == v
    requires forall x :: x != k ==> (x in m <==> x in n) && (x in m ==> m[x] == n[x])
    ensures n == m[k := v] && m == n - {k}
  {
  }
}
