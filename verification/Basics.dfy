/** Small definitions shared by the models. */
module Basics {
  const MAX_UINT64: nat := 0xFFFF_FFFF_FFFF_FFFF

  datatype Option<T> = None | Some(value: T)

  predicate Blank(c: char) {
    c in {' ', '\t', '\n', '\r'}
  }

  /** Not empty and without surrounding white space. */
  predicate Trimmed(s: string) {
    s != "" && !Blank(s[0]) && !Blank(s[|s| - 1])
  }

  /** Some key of a map, always the same one. */
  ghost function Pick<K(!new), V>(m: map<K, V>): (k: K)
    requires m != map[]
    ensures k in m
  {
    assert m.Keys != {};
    var k :| k in m.Keys; k
  }
}
