/** Shared value types: optional values and keyed tables that remember the
    order in which their rows were inserted. */
module Records {

  datatype Option<+T> = None | Some(value: T)

  datatype Side = Buy | Sell

  /** A database table: its rows by primary key, and the keys in rowid order. */
  datatype Table<K, V> = Table(ids: seq<K>, rows: map<K, V>) {

    /** The key list names every row exactly once. */
    ghost predicate Valid() {
      && (forall i :: 0 <= i < |ids| ==> ids[i] in rows)
      && (forall k | k in rows :: k in ids)
      && (forall i, j :: 0 <= i < j < |ids| ==> ids[i] != ids[j])
    }
  }

  function EmptyTable<K, V>(): Table<K, V> { Table([], map[]) }

  /** INSERT OR IGNORE on the primary key. */
  function Add<K, V>(t: Table<K, V>, k: K, v: V): Table<K, V> {
    if k in t.rows then t else Table(t.ids + [k], t.rows[k := v])
  }

  /** UPDATE of one existing row. */
  function Put<K, V>(t: Table<K, V>, k: K, v: V): Table<K, V>
    requires k in t.rows
  {
    Table(t.ids, t.rows[k := v])
  }

  lemma AddKeepsValid<K, V>(t: Table<K, V>, k: K, v: V)
    requires t.Valid()
    ensures Add(t, k, v).Valid()
  {
    var a := Add(t, k, v);
    if k !in t.rows {
      forall x | x in a.rows ensures x in a.ids {
        if x == k { assert a.ids[|t.ids|] == k; } else { assert x in t.ids; }
      }
    }
  }
}
