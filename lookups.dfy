/** Looking a key up in a fixed table with a fallback, the shape of every
    `iconMap[key] || 'Default'` and of every `switch` with a `default`
    arm in the dashboard. */
module Lookups {
  import opened Results
  import opened JsString

  /** The value of the first entry whose key is `key`. */
  function Find<V>(table: seq<(string, V)>, key: string): (r: Option<V>)
    ensures r.Some? <==> exists i :: 0 <= i < |table| && table[i].0 == key
    ensures r.Some? ==> exists i :: 0 <= i < |table| && table[i].0 == key && table[i].1 == r.value
  {
    if table == [] then None
    else if table[0].0 == key then Some(table[0].1)
    else
      var r := Find(table[1..], key);
      assert forall i :: 1 <= i < |table| ==> table[i] == table[1..][i - 1];
      r
  }

  /** A lookup with a fallback: a missing key (`undefined`) or one the
      table does not have gives `fallback`. */
  function FindOr<V>(table: seq<(string, V)>, key: Option<string>, fallback: V): (r: V)
    ensures key.Some? && Find(table, key.value).Some? ==> r == Find(table, key.value).value
    ensures key.None? || Find(table, key.value).None? ==> r == fallback
  {
    if key.Some? then
      match Find(table, key.value)
      case Some(v) => v
      case None => fallback
    else fallback
  }

  /** `table[key?.toLowerCase()] || fallback`. */
  function FindLowerOr<V>(table: seq<(string, V)>, key: Option<string>, fallback: V): (r: V)
    ensures key.None? ==> r == fallback
  {
    FindOr(table, if key.Some? then Some(ToLower(key.value)) else None, fallback)
  }

  /** A lookup with a fallback gives the fallback or a value of the table. */
  lemma FoundOrFallback<V>(table: seq<(string, V)>, key: Option<string>, fallback: V)
    ensures var r := FindOr(table, key, fallback);
      r == fallback || exists i :: 0 <= i < |table| && table[i].1 == r
  {
  }

  /** A lower-cased lookup ignores the case of its key: whatever the case,
      the same entry or the same fallback is found. */
  lemma FindLowerIgnoresCase<V>(table: seq<(string, V)>, key: string, fallback: V)
    ensures FindLowerOr(table, Some(key), fallback) == FindLowerOr(table, Some(ToLower(key)), fallback)
  {
    ToLowerIdempotent(key);
  }

  /** A table whose keys are already lower case finds each of its entries
      from any spelling of the key that lower-cases to it, as long as no
      earlier entry has the same key. */
  lemma {:induction false} FindLowerHitsEntry<V>(table: seq<(string, V)>, i: nat, key: string, fallback: V)
    requires i < |table| && ToLower(key) == table[i].0
    requires forall j :: 0 <= j < i ==> table[j].0 != table[i].0
    ensures FindLowerOr(table, Some(key), fallback) == table[i].1
  {
    FindFirst(table, i);
  }

  /** The first entry with a key is the one found. */
  lemma {:induction false} FindFirst<V>(table: seq<(string, V)>, i: nat)
    requires i < |table|
    requires forall j :: 0 <= j < i ==> table[j].0 != table[i].0
    ensures Find(table, table[i].0) == Some(table[i].1)
  {
    if i > 0 {
      assert table[1..][i - 1] == table[i];
      FindFirst(table[1..], i - 1);
    }
  }
}
