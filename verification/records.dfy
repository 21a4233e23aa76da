/** iobTable2Record: folding a table of key/value rows into a record, later
    rows overwriting earlier ones. */
module Records {
  import opened Wrappers

  /** The table of `{key, value}` rows the configuration keeps for headers,
      resource attributes and per-datapoint attributes. */
  type Table = seq<(string, string)>

  /** Row `i` is the last row of `pairs` that carries its key. */
  ghost predicate IsLastFor<K, V>(pairs: seq<(K, V)>, i: int)
    requires 0 <= i < |pairs|
  {
    forall j :: i < j < |pairs| ==> pairs[j].0 != pairs[i].0
  }

  /** The keys that occur in `pairs`. */
  ghost function KeysOf<K, V>(pairs: seq<(K, V)>): set<K> {
    set i | 0 <= i < |pairs| :: pairs[i].0
  }

  /** `pairs.reduce((prev, t) => ({...prev, [t.key]: t.value}), acc)`: the
      rows are applied first to last. */
  function Assign<K, V>(acc: map<K, V>, pairs: seq<(K, V)>): map<K, V>
    decreases |pairs|
  {
    if |pairs| == 0 then acc
    else Assign(acc, pairs[..|pairs| - 1])[pairs[|pairs| - 1].0 := pairs[|pairs| - 1].1]
  }

  /** Last write wins: each key ends up with the value of the last row that
      carries it, and keys no row carries keep `acc`'s value. */
  lemma {:induction false} AssignLastWins<K, V>(acc: map<K, V>, pairs: seq<(K, V)>)
    ensures Assign(acc, pairs).Keys == acc.Keys + KeysOf(pairs)
    ensures forall i :: 0 <= i < |pairs| && IsLastFor(pairs, i) ==>
              Assign(acc, pairs)[pairs[i].0] == pairs[i].1
    ensures forall k :: k in acc && k !in KeysOf(pairs) ==> Assign(acc, pairs)[k] == acc[k]
    decreases |pairs|
  {
    if |pairs| > 0 {
      var init := pairs[..|pairs| - 1];
      var last := pairs[|pairs| - 1];
      AssignLastWins(acc, init);
      KeysOfSnoc(init, last);
      assert pairs == init + [last];
      forall i | 0 <= i < |pairs| && IsLastFor(pairs, i)
        ensures Assign(acc, pairs)[pairs[i].0] == pairs[i].1
      {
        if i < |init| {
          assert pairs[i] == init[i];
          assert IsLastFor(init, i) by {
            forall j | i < j < |init| ensures init[j].0 != init[i].0 {
              assert init[j] == pairs[j];
            }
          }
        }
      }
    }
  }

  lemma KeysOfSnoc<K, V>(init: seq<(K, V)>, last: (K, V))
    ensures KeysOf(init + [last]) == KeysOf(init) + {last.0}
  {
    var pairs := init + [last];
    forall k | k in KeysOf(pairs) ensures k in KeysOf(init) + {last.0} {
      var i :| 0 <= i < |pairs| && pairs[i].0 == k;
      if i < |init| { assert init[i] == pairs[i]; }
    }
    forall k | k in KeysOf(init) ensures k in KeysOf(pairs) {
      var i :| 0 <= i < |init| && init[i].0 == k;
      assert pairs[i] == init[i];
    }
    assert pairs[|init|] == last;
  }

  /** iobTable2Record: an absent table gives the empty record; otherwise the
      record has exactly the table's keys, each with the value of the last
      row carrying it. */
  function IobTable2Record(table: Option<Table>): (r: map<string, string>)
    ensures table.None? ==> r == map[]
    ensures table.Some? ==> r.Keys == KeysOf(table.value)
    ensures table.Some? ==>
              forall i :: 0 <= i < |table.value| && IsLastFor(table.value, i) ==>
                r[table.value[i].0] == table.value[i].1
  {
    match table
    case None => map[]
    case Some(rows) =>
      AssignLastWins(map[], rows);
      Assign(map[], rows)
  }
}
