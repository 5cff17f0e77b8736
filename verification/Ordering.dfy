/** Sorting as the source uses it: `sorted(...)` and `ORDER BY` over rows whose
    sort keys are distinct.  Rows are a set, so the listing is by construction
    independent of the order in which they were fetched. */
module Ordering {

  ghost predicate TotalOrderOn<T(!new)>(s: set<T>, le: (T, T) -> bool) {
    && (forall x | x in s :: le(x, x))
    && (forall x, y | x in s && y in s :: le(x, y) || le(y, x))
    && (forall x, y | x in s && y in s && le(x, y) && le(y, x) :: x == y)
    && (forall x, y, z | x in s && y in s && z in s && le(x, y) && le(y, z) :: le(x, z))
  }

  function Elements<T(==)>(p: seq<T>): set<T> {
    set x | x in p
  }

  ghost predicate Distinct<T>(p: seq<T>) {
    forall i, j | 0 <= i < j < |p| :: p[i] != p[j]
  }

  ghost predicate OrderedBy<T>(r: seq<T>, le: (T, T) -> bool) {
    forall i, j | 0 <= i < j < |r| :: le(r[i], r[j])
  }

  /** `r` lists exactly the elements of `s`, once each, in order. */
  ghost predicate IsListing<T(!new)>(r: seq<T>, s: set<T>, le: (T, T) -> bool) {
    && (forall x :: x in r <==> x in s)
    && |r| == |s|
    && Distinct(r)
    && OrderedBy(r, le)
  }

  lemma Pick<T>(s: set<T>) returns (x: T)
    requires s != {}
    ensures x in s
  {
    x :| x in s;
  }

  lemma MinExists<T(!new)>(s: set<T>, le: (T, T) -> bool)
    requires s != {} && TotalOrderOn(s, le)
    ensures exists m :: m in s && forall y | y in s :: le(m, y)
  {
    var x :| x in s;
    var rest := s - {x};
    if rest != {} {
      MinExists(rest, le);
      var m :| m in rest && forall y | y in rest :: le(m, y);
      if le(m, x) {
        assert m in s && forall y | y in s :: le(m, y);
      } else {
        assert le(x, m);
        assert x in s && forall y | y in s :: le(x, y);
      }
    } else {
      assert s == {x};
    }
  }

  lemma SubOrder<T(!new)>(s: set<T>, sub: set<T>, le: (T, T) -> bool)
    requires TotalOrderOn(s, le) && sub <= s
    ensures TotalOrderOn(sub, le)
  {
  }

  lemma ConsListing<T(!new)>(m: T, rest: seq<T>, s: set<T>, le: (T, T) -> bool)
    requires m in s && (forall y | y in s :: le(m, y)) && IsListing(rest, s - {m}, le)
    ensures IsListing([m] + rest, s, le)
  {
    forall i | 0 <= i < |rest|
      ensures rest[i] != m && le(m, rest[i])
    {
      assert rest[i] in rest;
    }
  }

  function SortedBy<T(==, !new)>(s: set<T>, le: (T, T) -> bool): (r: seq<T>)
    requires TotalOrderOn(s, le)
    ensures IsListing(r, s, le)
  {
    if s == {} then []
    else
      MinExists(s, le);
      var m :| m in s && forall y | y in s :: le(m, y);
      SubOrder(s, s - {m}, le);
      var rest := SortedBy(s - {m}, le);
      ConsListing(m, rest, s, le);
      [m] + rest
  }

  lemma FirstIsLeast<T(!new)>(r: seq<T>, s: set<T>, le: (T, T) -> bool)
    requires TotalOrderOn(s, le) && IsListing(r, s, le)
    ensures s == {} <==> r == []
    ensures s != {} ==> r[0] in s && forall y | y in s :: le(r[0], y)
  {
    if s != {} {
      var x :| x in s;
      assert x in r;
      assert r[0] in r;
      forall y | y in s
        ensures le(r[0], y)
      {
        var i :| 0 <= i < |r| && r[i] == y;
      }
    }
  }

  /** A sorted listing is unique: fetch order and tie-breaking cannot show. */
  lemma {:induction false} ListingUnique<T(!new)>(r: seq<T>, q: seq<T>, s: set<T>, le: (T, T) -> bool)
    requires TotalOrderOn(s, le)
    requires IsListing(r, s, le) && IsListing(q, s, le)
    ensures r == q
    decreases |r|
  {
    hide IsListing;
    FirstIsLeast(r, s, le);
    FirstIsLeast(q, s, le);
    if s != {} {
      assert r[0] == q[0];
      TailListing(r, s, le);
      TailListing(q, s, le);
      ListingUnique(r[1..], q[1..], s - {r[0]}, le);
      assert r == [r[0]] + r[1..] && q == [q[0]] + q[1..];
    }
  }

  lemma TailListing<T(!new)>(r: seq<T>, s: set<T>, le: (T, T) -> bool)
    requires IsListing(r, s, le) && s != {}
    ensures |r| > 0 && r[0] in s && IsListing(r[1..], s - {r[0]}, le)
  {
    assert r[0] in s;
    forall x
      ensures x in r[1..] <==> x in s - {r[0]}
    {
      if x in r && x != r[0] {
        var i :| 0 <= i < |r| && r[i] == x;
        assert r[1..][i - 1] == x;
      }
    }
  }

  lemma SortedTail<T(!new)>(s: set<T>, le: (T, T) -> bool)
    requires TotalOrderOn(s, le) && s != {}
    ensures var r := SortedBy(s, le);
            && r != [] && r[0] in s && TotalOrderOn(s - {r[0]}, le)
            && SortedBy(s - {r[0]}, le) == r[1..]
  {
    var r := SortedBy(s, le);
    TailListing(r, s, le);
    var tail := s - {r[0]};
    ListingUnique(SortedBy(tail, le), r[1..], tail, le);
  }

  lemma ElementsTail<T>(r: seq<T>, k: nat, s: set<T>)
    requires 0 < k <= |r|
    ensures s - Elements(r[..k]) == s - {r[0]} - Elements(r[1..][..k - 1])
  {
    assert r[..k] == [r[0]] + r[1..][..k - 1];
  }

  /** Dropping a prefix of a sorted listing lists the set without that prefix. */
  lemma {:induction false} SuffixListing<T(!new)>(s: set<T>, le: (T, T) -> bool, k: nat)
    requires TotalOrderOn(s, le) && k <= |SortedBy(s, le)|
    ensures TotalOrderOn(s - Elements(SortedBy(s, le)[..k]), le)
    ensures SortedBy(s - Elements(SortedBy(s, le)[..k]), le) == SortedBy(s, le)[k..]
    decreases k
  {
    hide IsListing, TotalOrderOn;
    var r := SortedBy(s, le);
    if k == 0 {
      assert s - Elements(r[..0]) == s;
    } else {
      SortedTail(s, le);
      SuffixListing(s - {r[0]}, le, k - 1);
      ElementsTail(r, k, s);
      assert r[1..][k - 1..] == r[k..];
    }
  }

  /** `r` holds the first elements of `s`, as many as the limit allows: in order, once each, and before
      every element left out.  SQLite takes a negative limit as none. */
  ghost predicate ListsFirst<T(!new)>(r: seq<T>, s: set<T>, le: (T, T) -> bool, limit: int) {
    && Distinct(r) && OrderedBy(r, le) && (forall x | x in r :: x in s)
    && |r| == (if 0 <= limit <= |s| then limit else |s|)
    && forall x, y | x in r && y in s && y !in r :: le(x, y)
  }

  /** Those promises admit one answer: the sorted listing, cut at the limit. */
  lemma ListsFirstIff<T(!new)>(r: seq<T>, s: set<T>, le: (T, T) -> bool, limit: int)
    requires TotalOrderOn(s, le)
    ensures ListsFirst(r, s, le, limit) <==>
              r == SortedBy(s, le)[..if 0 <= limit <= |SortedBy(s, le)| then limit else |SortedBy(s, le)|]
  {
    var all := SortedBy(s, le);
    var cut := if 0 <= limit <= |all| then limit else |all|;
    CutListsFirst(all, s, le, cut);
    if ListsFirst(r, s, le, limit) {
      SubOrder(s, s - Elements(r), le);
      var rest := SortedBy(s - Elements(r), le);
      FirstThenRest(r, rest, s, le);
      ListingUnique(all, r + rest, s, le);
    }
  }

  lemma CutListsFirst<T(!new)>(all: seq<T>, s: set<T>, le: (T, T) -> bool, cut: nat)
    requires IsListing(all, s, le) && cut <= |all|
    ensures ListsFirst(all[..cut], s, le, cut)
  {
    forall x, y | x in all[..cut] && y in s
      ensures le(x, y) || y in all[..cut]
    {
      var i :| 0 <= i < cut && all[i] == x;
      assert y in all;
      var j :| 0 <= j < |all| && all[j] == y;
      if j < cut { assert all[..cut][j] == y; }
    }
  }

  lemma FirstThenRest<T(!new)>(r: seq<T>, rest: seq<T>, s: set<T>, le: (T, T) -> bool)
    requires Distinct(r) && OrderedBy(r, le) && (forall x | x in r :: x in s)
    requires forall x, y | x in r && y in s && y !in r :: le(x, y)
    requires IsListing(rest, s - Elements(r), le)
    ensures IsListing(r + rest, s, le)
  {
    var all := r + rest;
    forall i, j | 0 <= i < j < |all|
      ensures all[i] != all[j] && le(all[i], all[j])
    {
      if i < |r| <= j {
        assert all[i] in r && all[j] in rest;
      }
    }
    SameSize(all, s);
  }

  lemma ElementsConcat<T>(a: seq<T>, b: seq<T>)
    ensures Elements(a + b) == Elements(a) + Elements(b)
  {
  }

  lemma ListingElements<T(!new)>(r: seq<T>, s: set<T>, le: (T, T) -> bool)
    requires IsListing(r, s, le)
    ensures Elements(r) == s && |r| == |s| && Distinct(r)
  {
  }

  /** A duplicate-free sequence is as long as the set of its elements. */
  lemma {:induction false} SameSize<T>(r: seq<T>, s: set<T>)
    requires Distinct(r) && forall x :: x in r <==> x in s
    ensures |r| == |s|
  {
    if r == [] {
      assert s == {};
    } else {
      assert r[0] in s;
      forall x
        ensures x in r[1..] <==> x in s - {r[0]}
      {
        if x in r && x != r[0] {
          var i :| 0 <= i < |r| && r[i] == x;
          assert r[1..][i - 1] == x;
        }
      }
      SameSize(r[1..], s - {r[0]});
    }
  }

  lemma {:induction false} SubsetIsSmaller<T>(a: set<T>, b: set<T>)
    requires a <= b
    ensures |a| <= |b|
  {
    if a != {} {
      var x :| x in a;
      SubsetIsSmaller(a - {x}, b - {x});
    }
  }

  predicate IntLe(a: int, b: int) { a <= b }

  /** Lexicographic comparison of text, as SQLite's BINARY collation and Python's `str` do it. */
  predicate TextLe(a: string, b: string) {
    if a == "" then true
    else if b == "" then false
    else if a[0] != b[0] then a[0] < b[0]
    else TextLe(a[1..], b[1..])
  }

  lemma {:induction false} TextLeReflexive(a: string)
    ensures TextLe(a, a)
  {
    if a != "" { TextLeReflexive(a[1..]); }
  }

  lemma {:induction false} TextLeTotal(a: string, b: string)
    ensures TextLe(a, b) || TextLe(b, a)
  {
    if a != "" && b != "" && a[0] == b[0] { TextLeTotal(a[1..], b[1..]); }
  }

  lemma {:induction false} TextLeAntisymmetric(a: string, b: string)
    requires TextLe(a, b) && TextLe(b, a)
    ensures a == b
  {
    if a != "" && b != "" {
      TextLeAntisymmetric(a[1..], b[1..]);
      assert a == [a[0]] + a[1..] && b == [b[0]] + b[1..];
    }
  }

  lemma {:induction false} TextLeTransitive(a: string, b: string, c: string)
    requires TextLe(a, b) && TextLe(b, c)
    ensures TextLe(a, c)
  {
    if a != "" && b != "" && c != "" && a[0] == b[0] == c[0] {
      TextLeTransitive(a[1..], b[1..], c[1..]);
    }
  }

  /** ORDER BY two text columns */
  predicate TextPairLe(a: (string, string), b: (string, string)) {
    if a.0 == b.0 then TextLe(a.1, b.1) else TextLe(a.0, b.0)
  }

  lemma TextPairLeTotal(s: set<(string, string)>)
    ensures TotalOrderOn(s, TextPairLe)
  {
    forall a, b: (string, string)
      ensures TextPairLe(a, a) && (TextPairLe(a, b) || TextPairLe(b, a))
      ensures TextPairLe(a, b) && TextPairLe(b, a) ==> a == b
    {
      TextLeReflexive(a.1);
      TextLeTotal(a.1, b.1);
      TextLeTotal(a.0, b.0);
      if TextLe(a.0, b.0) && TextLe(b.0, a.0) { TextLeAntisymmetric(a.0, b.0); }
      if TextLe(a.1, b.1) && TextLe(b.1, a.1) { TextLeAntisymmetric(a.1, b.1); }
    }
    forall a, b, c: (string, string) | TextPairLe(a, b) && TextPairLe(b, c)
      ensures TextPairLe(a, c)
    {
      if TextLe(a.0, b.0) && TextLe(b.0, c.0) {
        TextLeTransitive(a.0, b.0, c.0);
        if a.0 == c.0 { TextLeAntisymmetric(a.0, b.0); }
      }
      if a.0 == b.0 == c.0 { TextLeTransitive(a.1, b.1, c.1); }
    }
  }
}
