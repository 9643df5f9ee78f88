/** Small types and predicates that several components share. */
module Common {
  datatype Option<T> = None | Some(value: T)

  datatype Keyed<T> = Keyed(key: string, value: T)

  /** No key is repeated. */
  predicate Distinct<T>(ms: seq<Keyed<T>>) {
    forall i, j :: 0 <= i < j < |ms| ==> ms[i].key != ms[j].key
  }

  predicate StartsWith(text: string, prefix: string) {
    |prefix| <= |text| && text[..|prefix|] == prefix
  }
}
