/** A plain JavaScript object with string keys: a key/value map plus the
    order in which its own keys were first inserted, which is the order
    `for...in` and `Object.keys` visit them. */
module JsObject {

  /** No key occurs twice in `s`. */
  ghost predicate Distinct(s: seq<string>) {
    forall i, j :: 0 <= i < j < |s| ==> s[i] != s[j]
  }

  datatype Obj<V> = Obj(keys: seq<string>, values: map<string, V>) {

    /** `keys` lists every key of `values`, each once. */
    ghost predicate Valid() {
      && Distinct(keys)
      && (forall k :: k in values <==> k in keys)
    }
  }

  /** `{}` */
  function Empty<V>(): (r: Obj<V>)
    ensures r.Valid() && r.values == map[] && r.keys == []
  {
    Obj([], map[])
  }

  /** `o[k] = v`: an existing key keeps its place, a new key goes last. */
  function Put<V>(o: Obj<V>, k: string, v: V): (r: Obj<V>)
    requires o.Valid()
    ensures r.Valid()
    ensures r.values == o.values[k := v]
    ensures k in o.values ==> r.keys == o.keys
    ensures k !in o.values ==> r.keys == o.keys + [k]
  {
    if k in o.values then Obj(o.keys, o.values[k := v])
    else Obj(o.keys + [k], o.values[k := v])
  }

  /** `delete o[k]`: the other keys keep their relative order. */
  function Delete<V>(o: Obj<V>, k: string): (r: Obj<V>)
    requires o.Valid()
    ensures r.Valid()
    ensures r.values == o.values - {k}
    ensures r.keys == Without(o.keys, k)
  {
    Obj(Without(o.keys, k), o.values - {k})
  }

  /** `s` with every occurrence of `k` removed, the rest in order. */
  function Without(s: seq<string>, k: string): (r: seq<string>)
    ensures forall x :: x in r <==> x in s && x != k
    ensures Distinct(s) ==> Distinct(r)
    ensures |r| <= |s|
  {
    if |s| == 0 then []
    else if s[0] == k then Without(s[1..], k)
    else
      var rest := Without(s[1..], k);
      assert Distinct(s) ==> s[0] !in s[1..];
      [s[0]] + rest
  }
}
