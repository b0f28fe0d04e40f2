/** Sizes, budgets and sums that every table of the client uses. */
module Base {

  datatype Option<+T> = None | Some(value: T)

  // std::size_t and std::uint64_t are 64 bits wide.
  const SIZE_MAX: nat := 0xFFFF_FFFF_FFFF_FFFF
  const U64_MAX: nat := 0xFFFF_FFFF_FFFF_FFFF

  predicate FitsByteBudget(used: nat, added: nat, maximum: nat) {
    added <= maximum && used <= maximum - added
  }

  /** Unsigned subtraction: it wraps around when it would go below zero. */
  function Minus(a: nat, b: nat): (d: nat)
    ensures b <= a ==> d == a - b
  {
    if b <= a then a - b else (a - b) % (SIZE_MAX + 1)
  }

  function SaturatingAdd(left: nat, right: nat): nat {
    if right > U64_MAX - left then U64_MAX else left + right
  }

  ghost function AnyKey<K, V>(table: map<K, V>): (k: K)
    requires |table| != 0
    ensures k in table
  {
    var k :| k in table; k
  }

  /** The sum of `weight` over the entries of a table. */
  ghost function Total<K, V>(table: map<K, V>, weight: V -> nat): nat
    decreases |table|
  {
    if |table| == 0 then 0 else
    var k := AnyKey(table);
    weight(table[k]) + Total(table - {k}, weight)
  }

  lemma {:induction false} TotalRemove<K, V>(table: map<K, V>, weight: V -> nat, k: K)
    requires k in table
    ensures Total(table, weight) == weight(table[k]) + Total(table - {k}, weight)
    decreases |table|
  {
    var first := AnyKey(table);
    if first != k {
      var rest := table - {first};
      TotalRemove(rest, weight, k);
      TotalRemove(table - {k}, weight, first);
      assert rest - {k} == table - {k} - {first};
    }
  }

  lemma TotalInsert<K, V>(table: map<K, V>, weight: V -> nat, k: K, v: V)
    requires k !in table
    ensures Total(table[k := v], weight) == Total(table, weight) + weight(v)
    ensures |table[k := v]| == |table| + 1
  {
    TotalRemove(table[k := v], weight, k);
    assert table[k := v] - {k} == table;
  }

  lemma TotalReplace<K, V>(table: map<K, V>, weight: V -> nat, k: K, v: V)
    requires k in table
    ensures Total(table[k := v], weight) + weight(table[k]) == Total(table, weight) + weight(v)
    ensures |table[k := v]| == |table|
  {
    TotalRemove(table, weight, k);
    TotalRemove(table[k := v], weight, k);
    assert table[k := v] - {k} == table - {k};
    assert table[k := v].Keys == table.Keys;
  }

  lemma RemoveSize<K, V>(table: map<K, V>, k: K)
    requires k in table
    ensures |table - {k}| == |table| - 1
  {
    assert (table - {k}).Keys == table.Keys - {k};
  }

  lemma EmptyTotal<K, V>(table: map<K, V>, weight: V -> nat)
    requires table == map[]
    ensures Total(table, weight) == 0
  {
  }
}
