/** Shared failure-free helper types. */
module Common {
  datatype Option<+T> = None | Some(value: T)

  datatype Result<+T, +E> = Ok(value: T) | Err(error: E)

  ghost predicate NoRepeats<T>(s: seq<T>) {
    forall i, j :: 0 <= i < j < |s| ==> s[i] != s[j]
  }

  lemma SumAssociates<K, T>(a: map<K, T>, b: map<K, T>, c: map<K, T>)
    ensures (a + b) + c == a + (b + c)
  {
  }
}
