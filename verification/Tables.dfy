/** Keyed tables: filtering rows, inserting them one by one, and merging a list into a table. */
module Tables {
  import opened Ordering
  import opened Outcomes

  /** `[x for x in s if keep(x)]` */
  function Filter<T(!new)>(s: seq<T>, keep: T -> bool): (r: seq<T>)
    ensures forall x :: x in r <==> x in s && keep(x)
  {
    if s == [] then []
    else
      var rest := Filter(s[1..], keep);
      if keep(s[0]) then [s[0]] + rest else rest
  }

  lemma {:induction false} FilterAll<T(!new)>(s: seq<T>, keep: T -> bool)
    requires forall x | x in s :: keep(x)
    ensures Filter(s, keep) == s
  {
    if s != [] {
      FilterAll(s[1..], keep);
      assert s == [s[0]] + s[1..];
    }
  }

  lemma {:induction false} FilterNone<T(!new)>(s: seq<T>, keep: T -> bool)
    requires forall x | x in s :: !keep(x)
    ensures Filter(s, keep) == []
  {
    if s != [] { FilterNone(s[1..], keep); }
  }

  lemma {:induction false} FilterSame<T(!new)>(s: seq<T>, keep: T -> bool, other: T -> bool)
    requires forall x | x in s :: keep(x) == other(x)
    ensures Filter(s, keep) == Filter(s, other)
  {
    if s != [] { FilterSame(s[1..], keep, other); }
  }

  lemma {:induction false} FilterSnoc<T(!new)>(s: seq<T>, x: T, keep: T -> bool)
    ensures Filter(s + [x], keep) == if keep(x) then Filter(s, keep) + [x] else Filter(s, keep)
  {
    if s == [] {
      assert [] + [x] == [x];
      assert Filter([x][1..], keep) == [];
    } else {
      FilterSnoc(s[1..], x, keep);
      assert (s + [x])[1..] == s[1..] + [x];
    }
  }

  function Chosen<T(!new)>(s: set<T>, keep: T -> bool): set<T> {
    set x | x in s && keep(x)
  }

  /** Filtering a sorted listing lists the filtered set. */
  lemma {:induction false} FilterListing<T(!new)>(r: seq<T>, s: set<T>, le: (T, T) -> bool, keep: T -> bool)
    requires IsListing(r, s, le)
    ensures IsListing(Filter(r, keep), Chosen(s, keep), le)
  {
    FilterOrdered(r, le, keep);
    SameSize(Filter(r, keep), Chosen(s, keep));
  }

  lemma {:induction false} FilterOrdered<T(!new)>(r: seq<T>, le: (T, T) -> bool, keep: T -> bool)
    requires Distinct(r) && OrderedBy(r, le)
    ensures Distinct(Filter(r, keep)) && OrderedBy(Filter(r, keep), le)
  {
    if r != [] {
      FilterOrdered(r[1..], le, keep);
      forall x | x in Filter(r[1..], keep)
        ensures x != r[0] && le(r[0], x)
      {
        var i :| 0 <= i < |r[1..]| && r[1..][i] == x;
        assert r[i + 1] == x;
      }
    }
  }

  // ---------------------------------------------------------------------------
  // Inserting
  // ---------------------------------------------------------------------------

  /** A table's unique key, its CHECK constraint, and its second UNIQUE constraint. */
  datatype Schema<!K, !V> = Schema(key: V -> K, ok: V -> bool, clash: (V, V) -> bool)

  /** The table after inserting `rows` in order. */
  function Inserted<K, V>(table: map<K, V>, rows: seq<V>, schema: Schema<K, V>): map<K, V> {
    if rows == [] then table
    else
      var last := rows[|rows| - 1];
      Inserted(table, rows[..|rows| - 1], schema)[schema.key(last) := last]
  }

  predicate Accepts<K(==), V(!new)>(table: map<K, V>, row: V, schema: Schema<K, V>) {
    schema.key(row) !in table && schema.ok(row) && forall k | k in table :: !schema.clash(table[k], row)
  }

  /** No insert of the sequence violates a constraint. */
  predicate Insertable<K(==), V(!new)>(table: map<K, V>, rows: seq<V>, schema: Schema<K, V>) {
    rows == [] ||
    (var before := rows[..|rows| - 1];
     Insertable(table, before, schema) && Accepts(Inserted(table, before, schema), rows[|rows| - 1], schema))
  }

  /** Insert row by row; the first violation makes the whole sequence fail. */
  method InsertRows<K(==), V(!new)>(table: map<K, V>, rows: seq<V>, schema: Schema<K, V>)
    returns (r: Option<map<K, V>>)
    ensures r == if Insertable(table, rows, schema) then Some(Inserted(table, rows, schema)) else None
  {
    var t := table;
    for i := 0 to |rows|
      invariant Insertable(table, rows[..i], schema) && t == Inserted(table, rows[..i], schema)
    {
      assert rows[..i + 1][..i] == rows[..i];
      if !Accepts(t, rows[i], schema) {
        NotInsertableLater(table, rows, schema, i + 1);
        return None;
      }
      t := t[schema.key(rows[i]) := rows[i]];
    }
    assert rows[..|rows|] == rows;
    return Some(t);
  }

  lemma {:induction false} NotInsertableLater<K, V(!new)>(table: map<K, V>, rows: seq<V>, schema: Schema<K, V>, i: nat)
    requires i <= |rows| && !Insertable(table, rows[..i], schema)
    ensures !Insertable(table, rows, schema)
    decreases |rows| - i
  {
    if i < |rows| {
      assert rows[..i + 1][..i] == rows[..i];
      NotInsertableLater(table, rows, schema, i + 1);
    } else {
      assert rows[..i] == rows;
    }
  }

  ghost predicate KeysDistinct<K, V>(rows: seq<V>, schema: Schema<K, V>) {
    forall i, j | 0 <= i < j < |rows| :: schema.key(rows[i]) != schema.key(rows[j])
  }

  ghost predicate Fresh<K, V>(table: map<K, V>, rows: seq<V>, schema: Schema<K, V>) {
    KeysDistinct(rows, schema) && forall r | r in rows :: schema.key(r) !in table
  }

  ghost predicate Unclashing<K, V>(table: map<K, V>, rows: seq<V>, schema: Schema<K, V>) {
    && (forall i, j | 0 <= i < j < |rows| :: !schema.clash(rows[i], rows[j]))
    && (forall k, r | k in table && r in rows :: !schema.clash(table[k], r))
  }

  /** What `Inserted` contains, when the keys are new and distinct. */
  lemma {:induction false} InsertedContents<K(!new), V(!new)>(table: map<K, V>, rows: seq<V>, schema: Schema<K, V>)
    requires Fresh(table, rows, schema)
    ensures var t := Inserted(table, rows, schema);
            && t.Keys == table.Keys + KeysOf(rows, schema)
            && (forall k | k in table :: t[k] == table[k])
            && (forall r | r in rows :: t[schema.key(r)] == r)
  {
    if rows != [] {
      var before, last := rows[..|rows| - 1], rows[|rows| - 1];
      assert rows == before + [last];
      InsertedContents(table, before, schema);
      forall r | r in before
        ensures schema.key(r) != schema.key(last)
      {
        var i :| 0 <= i < |before| && before[i] == r;
        assert rows[i] == r;
      }
      assert KeysOf(rows, schema) == KeysOf(before, schema) + {schema.key(last)};
    }
  }

  lemma RowAfterInsert<K(!new), V(!new)>(table: map<K, V>, rows: seq<V>, schema: Schema<K, V>, k: K)
    requires Fresh(table, rows, schema) && k in Inserted(table, rows, schema)
    ensures var t := Inserted(table, rows, schema);
            if k in table then t[k] == table[k] else t[k] in rows && schema.key(t[k]) == k
  {
    InsertedContents(table, rows, schema);
    if k !in table {
      var r :| r in rows && schema.key(r) == k;
    }
  }

  /** The inserts succeed exactly when keys are new and distinct, every row is acceptable by
      itself, and no two rows clash. */
  lemma {:induction false} InsertableIff<K(!new), V(!new)>(table: map<K, V>, rows: seq<V>, schema: Schema<K, V>)
    ensures Insertable(table, rows, schema)
       <==> Fresh(table, rows, schema) && (forall r | r in rows :: schema.ok(r)) && Unclashing(table, rows, schema)
  {
    if rows != [] {
      var before, last := rows[..|rows| - 1], rows[|rows| - 1];
      assert rows == before + [last];
      InsertableIff(table, before, schema);
      if Insertable(table, before, schema) {
        LastAcceptedIff(table, before, last, schema);
      } else {
        PrefixHolds(table, before, last, schema);
      }
    }
  }

  lemma PrefixHolds<K(!new), V(!new)>(table: map<K, V>, before: seq<V>, last: V, schema: Schema<K, V>)
    ensures Fresh(table, before + [last], schema) ==> Fresh(table, before, schema)
    ensures Unclashing(table, before + [last], schema) ==> Unclashing(table, before, schema)
  {
    var rows := before + [last];
    assert forall i | 0 <= i < |before| :: rows[i] == before[i];
    assert forall r | r in before :: r in rows;
  }

  lemma LastAcceptedIff<K(!new), V(!new)>(table: map<K, V>, before: seq<V>, last: V, schema: Schema<K, V>)
    requires Fresh(table, before, schema) && Unclashing(table, before, schema)
    ensures Accepts(Inserted(table, before, schema), last, schema)
       <==> && Fresh(table, before + [last], schema) && schema.ok(last)
            && Unclashing(table, before + [last], schema)
  {
    var t, rows := Inserted(table, before, schema), before + [last];
    InsertedContents(table, before, schema);
    assert forall i | 0 <= i < |before| :: rows[i] == before[i] && before[i] in before;
    assert rows[|before|] == last;
    if Accepts(t, last, schema) {
      forall i | 0 <= i < |before|
        ensures schema.key(rows[i]) != schema.key(last) && !schema.clash(rows[i], last)
      {
        assert t[schema.key(before[i])] == before[i];
      }
    }
    if Fresh(table, rows, schema) && Unclashing(table, rows, schema) {
      forall k | k in t
        ensures !schema.clash(t[k], last)
      {
        RowAfterInsert(table, before, schema, k);
        assert last in rows;
        if k !in table {
          var i :| 0 <= i < |before| && before[i] == t[k];
          assert rows[i] == t[k];
        }
      }
    }
  }

  ghost predicate WellKept<K, V>(table: map<K, V>, schema: Schema<K, V>) {
    && (forall k | k in table :: schema.key(table[k]) == k && schema.ok(table[k]))
    && (forall k, l | k in table && l in table && k != l :: !schema.clash(table[k], table[l]))
  }

  /** A successful insert keeps the table's constraints. */
  lemma InsertKeepsTable<K(!new), V(!new)>(table: map<K, V>, rows: seq<V>, schema: Schema<K, V>)
    requires WellKept(table, schema) && Insertable(table, rows, schema)
    requires forall a, b :: schema.clash(a, b) ==> schema.clash(b, a)
    ensures WellKept(Inserted(table, rows, schema), schema)
  {
    var t := Inserted(table, rows, schema);
    InsertableIff(table, rows, schema);
    forall k | k in t
      ensures schema.key(t[k]) == k && schema.ok(t[k])
    {
      RowAfterInsert(table, rows, schema, k);
    }
    forall k, l | k in t && l in t && k != l
      ensures !schema.clash(t[k], t[l])
    {
      RowAfterInsert(table, rows, schema, k);
      RowAfterInsert(table, rows, schema, l);
      if k !in table && l !in table {
        var i :| 0 <= i < |rows| && rows[i] == t[k];
        var j :| 0 <= j < |rows| && rows[j] == t[l];
      }
    }
  }

  // ---------------------------------------------------------------------------
  // Merging: insert the rows whose key is absent, skip the others
  // ---------------------------------------------------------------------------

  function Absent<K(==), V(!new)>(table: map<K, V>, rows: seq<V>, schema: Schema<K, V>): seq<V> {
    Filter(rows, r => schema.key(r) !in table)
  }

  function Merge<K(==), V(!new)>(table: map<K, V>, rows: seq<V>, schema: Schema<K, V>): map<K, V> {
    Inserted(table, Absent(table, rows, schema), schema)
  }

  /** No key that is new to the table occurs twice. */
  ghost predicate Mergeable<K, V(!new)>(table: map<K, V>, rows: seq<V>, schema: Schema<K, V>) {
    KeysDistinct(Absent(table, rows, schema), schema)
  }

  ghost function KeysOf<K(!new), V(!new)>(rows: seq<V>, schema: Schema<K, V>): set<K> {
    set r | r in rows :: schema.key(r)
  }

  lemma MergeContents<K(!new), V(!new)>(table: map<K, V>, rows: seq<V>, schema: Schema<K, V>)
    requires Mergeable(table, rows, schema)
    ensures var t := Merge(table, rows, schema);
            && t.Keys == table.Keys + KeysOf(rows, schema)
            && (forall k | k in table :: t[k] == table[k])
            && (forall r | r in rows && schema.key(r) !in table :: t[schema.key(r)] == r)
  {
    var added := Absent(table, rows, schema);
    InsertedContents(table, added, schema);
    var t := Merge(table, rows, schema);
    forall k
      ensures k in t <==> k in table.Keys + KeysOf(rows, schema)
    {
      if k in KeysOf(rows, schema) && k !in table {
        var r :| r in rows && schema.key(r) == k;
        assert r in added;
      }
      if k in KeysOf(added, schema) {
        var r :| r in added && schema.key(r) == k;
        assert r in rows;
      }
    }
  }

  ghost predicate AgreeOnShared<K, V>(a: seq<V>, b: seq<V>, schema: Schema<K, V>) {
    forall r, q | r in a && q in b && schema.key(r) == schema.key(q) :: r == q
  }

  /** Both orders of merging two lists are possible. */
  ghost predicate MergeableBothWays<K, V(!new)>(table: map<K, V>, a: seq<V>, b: seq<V>, schema: Schema<K, V>) {
    && Mergeable(table, a, schema) && Mergeable(Merge(table, a, schema), b, schema)
    && Mergeable(table, b, schema) && Mergeable(Merge(table, b, schema), a, schema)
  }

  /** Merging two lists in either order gives the same keys, and the same rows when they agree
      on shared keys. */
  lemma MergeCommutes<K(!new), V(!new)>(table: map<K, V>, a: seq<V>, b: seq<V>, schema: Schema<K, V>)
    requires MergeableBothWays(table, a, b, schema)
    ensures Merge(Merge(table, a, schema), b, schema).Keys == Merge(Merge(table, b, schema), a, schema).Keys
    ensures AgreeOnShared(a, b, schema) ==>
              Merge(Merge(table, a, schema), b, schema) == Merge(Merge(table, b, schema), a, schema)
  {
    var ta, tb := Merge(table, a, schema), Merge(table, b, schema);
    MergeContents(table, a, schema);
    MergeContents(table, b, schema);
    MergeContents(ta, b, schema);
    MergeContents(tb, a, schema);
    if AgreeOnShared(a, b, schema) {
      var l, r := Merge(ta, b, schema), Merge(tb, a, schema);
      forall k | k in l
        ensures l[k] == r[k]
      {
        MergedRow(table, a, b, schema, k);
        MergedRow(table, b, a, schema, k);
        if k in KeysOf(a, schema) && k !in KeysOf(b, schema) && k !in table {
          assert l[k] == ta[k];
          assert r[k] in a && schema.key(r[k]) == k;
          assert ta[schema.key(r[k])] == r[k];
        }
        if k in KeysOf(b, schema) && k !in KeysOf(a, schema) && k !in table {
          assert r[k] == tb[k];
          assert l[k] in b && schema.key(l[k]) == k;
          assert tb[schema.key(l[k])] == l[k];
        }
      }
    }
  }

  /** Whose row is found under `k` after merging `a` and then `b`. */
  lemma MergedRow<K(!new), V(!new)>(table: map<K, V>, a: seq<V>, b: seq<V>, schema: Schema<K, V>, k: K)
    requires Mergeable(table, a, schema) && Mergeable(Merge(table, a, schema), b, schema)
    requires k in Merge(Merge(table, a, schema), b, schema)
    ensures var t := Merge(Merge(table, a, schema), b, schema);
            if k in table then t[k] == table[k]
            else if k in KeysOf(a, schema) then t[k] in a && schema.key(t[k]) == k
            else t[k] in b && schema.key(t[k]) == k
  {
    var ta := Merge(table, a, schema);
    MergeContents(table, a, schema);
    MergeContents(ta, b, schema);
    if k !in table {
      if k in KeysOf(a, schema) {
        var r :| r in a && schema.key(r) == k;
        assert ta[schema.key(r)] == r;
      } else {
        assert k in KeysOf(b, schema);
        var r :| r in b && schema.key(r) == k;
        assert schema.key(r) !in ta;
      }
    }
  }
}
