/** Lists of key-value entries in which the first entry of a key counts. */
module Entries {
  import opened Prelude

  /** The value of the first entry with this key. */
  function Lookup<V>(s: seq<(string, V)>, key: string): Option<V> {
    if s == [] then None
    else if s[0].0 == key then Some(s[0].1)
    else Lookup(s[1..], key)
  }

  function OrElse<V>(a: Option<V>, b: Option<V>): Option<V> {
    if a.Some? then a else b
  }

  lemma {:induction false} LookupAppend<V>(a: seq<(string, V)>, b: seq<(string, V)>, key: string)
    ensures Lookup(a + b, key) == OrElse(Lookup(a, key), Lookup(b, key))
  {
    if a == [] {
      assert a + b == b;
    } else {
      assert (a + b)[0] == a[0] && (a + b)[1..] == a[1..] + b;
      LookupAppend(a[1..], b, key);
    }
  }

  lemma LookupSnoc<V>(a: seq<(string, V)>, key: string, value: V, wanted: string)
    ensures Lookup(a + [(key, value)], wanted) ==
            OrElse(Lookup(a, wanted), if key == wanted then Some(value) else None)
  {
    LookupAppend(a, [(key, value)], wanted);
    assert [(key, value)][1..] == [];
  }
}
