/** Partial successor maps: walks, cycles, and when a new edge keeps a map acyclic.
    Artifact supersession, ontology supersession and blocked-task chains are all
    such maps. */
module SuccessorGraph {
  import opened Ordering

  /** Consecutive nodes of `p` are linked by `m`. */
  ghost predicate IsWalk<T(!new)>(m: map<T, T>, p: seq<T>) {
    forall i | 0 <= i < |p| - 1 :: p[i] in m && m[p[i]] == p[i + 1]
  }

  function Last<T>(p: seq<T>): T
    requires p != []
  {
    p[|p| - 1]
  }

  /** A non-empty walk without repetition whose last node leads back to its first. */
  ghost predicate IsCycle<T(!new)>(m: map<T, T>, c: seq<T>) {
    && c != [] && Distinct(c) && IsWalk(m, c)
    && Last(c) in m && m[Last(c)] == c[0]
  }

  ghost predicate Acyclic<T(!new)>(m: map<T, T>) {
    forall c: seq<T> :: !IsCycle(m, c)
  }

  ghost predicate WalkFrom<T(!new)>(m: map<T, T>, x: T, p: seq<T>) {
    p != [] && p[0] == x && IsWalk(m, p)
  }

  ghost predicate Reaches<T(!new)>(m: map<T, T>, x: T, y: T) {
    exists p: seq<T> :: WalkFrom(m, x, p) && Last(p) == y
  }

  /** Following the links from `x` comes to a node without a successor. */
  ghost predicate Ends<T(!new)>(m: map<T, T>, x: T) {
    exists p: seq<T> :: WalkFrom(m, x, p) && Last(p) !in m
  }

  /** The node sets of all cycles of `m`. */
  ghost function CycleSets<T(!new)>(m: map<T, T>): iset<set<T>> {
    iset c: seq<T> | IsCycle(m, c) :: Elements(c)
  }

  ghost predicate Closed<T>(m: map<T, T>, s: set<T>) {
    forall x | x in s :: x in m && m[x] in s
  }

  lemma CycleIsClosed<T(!new)>(m: map<T, T>, c: seq<T>)
    requires IsCycle(m, c)
    ensures Closed(m, Elements(c))
  {
    forall x | x in c
      ensures x in m && m[x] in c
    {
      var i :| 0 <= i < |c| && c[i] == x;
      if i < |c| - 1 { assert m[c[i]] == c[i + 1]; }
    }
  }

  /** A closed set containing one node of a walk contains the rest of the walk. */
  lemma {:induction false} ClosedSpreads<T(!new)>(m: map<T, T>, s: set<T>, p: seq<T>, i: nat, k: nat)
    requires Closed(m, s) && IsWalk(m, p)
    requires i <= k < |p| && p[i] in s
    ensures p[k] in s
    decreases k
  {
    if i < k {
      ClosedSpreads(m, s, p, i, k - 1);
      assert m[p[k - 1]] == p[k];
    }
  }

  lemma CycleWithinClosed<T(!new)>(m: map<T, T>, s: set<T>, c: seq<T>, x: T)
    requires Closed(m, s) && IsCycle(m, c) && x in c && x in s
    ensures Elements(c) <= s
  {
    var i :| 0 <= i < |c| && c[i] == x;
    ClosedSpreads(m, s, c, i, |c| - 1);
    assert c[0] in s;
    forall k | 0 <= k < |c|
      ensures c[k] in s
    {
      ClosedSpreads(m, s, c, 0, k);
    }
  }

  /** Two cycles of one map that share a node have the same nodes. */
  lemma CyclesMeetingCoincide<T(!new)>(m: map<T, T>, c: seq<T>, d: seq<T>, x: T)
    requires IsCycle(m, c) && IsCycle(m, d) && x in c && x in d
    ensures Elements(c) == Elements(d)
  {
    hide IsCycle, Closed;
    CycleIsClosed(m, c);
    CycleIsClosed(m, d);
    CycleWithinClosed(m, Elements(d), c, x);
    CycleWithinClosed(m, Elements(c), d, x);
  }

  /** A walk that never repeats a node, continued until it leaves `m` or re-enters itself. */
  lemma MaximalWalk<T(!new)>(m: map<T, T>, x: T) returns (p: seq<T>)
    ensures WalkFrom(m, x, p) && Distinct(p)
    ensures Last(p) in m ==> m[Last(p)] in p
  {
    p := [x];
    var unseen := m.Keys - {x};
    while Last(p) in m && m[Last(p)] !in p
      invariant WalkFrom(m, x, p) && Distinct(p)
      invariant unseen == m.Keys - Elements(p)
      decreases unseen
    {
      var y := m[Last(p)];
      var q := p + [y];
      assert Elements(q) == Elements(p) + {y};
      if y !in m {
        p := q;
        unseen := m.Keys - Elements(p);
        break;
      }
      assert y in unseen;
      p := q;
      unseen := m.Keys - Elements(p);
    }
  }

  /** The suffix from the re-entered node is a cycle. */
  lemma ReentryIsCycle<T(!new)>(m: map<T, T>, p: seq<T>, i: nat)
    requires p != [] && IsWalk(m, p) && Distinct(p)
    requires i < |p| && Last(p) in m && m[Last(p)] == p[i]
    ensures IsCycle(m, p[i..])
  {
  }

  /** Two walks from one node agree as long as both last. */
  lemma {:induction false} WalksAgree<T(!new)>(m: map<T, T>, x: T, p: seq<T>, q: seq<T>, k: nat)
    requires WalkFrom(m, x, p) && WalkFrom(m, x, q) && k < |p| && k < |q|
    ensures p[k] == q[k]
  {
    if k > 0 {
      WalksAgree(m, x, p, q, k - 1);
      assert m[p[k - 1]] == p[k] && m[q[k - 1]] == q[k];
    }
  }

  /** No walk from a cycle node ever leaves the map. */
  lemma CycleNeverEnds<T(!new)>(m: map<T, T>, c: seq<T>, x: T)
    requires IsCycle(m, c) && x in c
    ensures !Ends(m, x)
  {
    hide IsCycle;
    CycleIsClosed(m, c);
    forall p | WalkFrom(m, x, p)
      ensures Last(p) in m
    {
      ClosedSpreads(m, Elements(c), p, 0, |p| - 1);
    }
  }

  /** Acyclicity is exactly termination of every walk. */
  lemma AcyclicIffEveryWalkEnds<T(!new)>(m: map<T, T>)
    ensures Acyclic(m) <==> forall x :: Ends(m, x)
  {
    if Acyclic(m) {
      forall x
        ensures Ends(m, x)
      {
        var p := MaximalWalk(m, x);
        if Last(p) in m {
          var i :| 0 <= i < |p| && p[i] == m[Last(p)];
          ReentryIsCycle(m, p, i);
          assert false;
        }
      }
    } else {
      var c :| IsCycle(m, c);
      CycleNeverEnds(m, c, c[0]);
    }
  }

  lemma LinkKeepsCycles<T(!new)>(m: map<T, T>, a: T, b: T, c: seq<T>)
    requires a !in m && IsCycle(m, c)
    ensures IsCycle(m[a := b], c)
  {
    var n := m[a := b];
    CycleIsClosed(m, c);
    forall i | 0 <= i < |c| - 1
      ensures c[i] in n && n[c[i]] == c[i + 1]
    {
      assert c[i] in m && m[c[i]] == c[i + 1];
    }
    assert Last(c) in m;
  }

  lemma ReachingLinkClosesCycle<T(!new)>(m: map<T, T>, a: T, b: T)
    requires a !in m && Reaches(m, b, a)
    ensures !Acyclic(m[a := b])
  {
    var n := m[a := b];
    var p :| WalkFrom(m, b, p) && Last(p) == a;
    var q := MaximalWalk(m, b);
    if Last(q) in m {
      var i :| 0 <= i < |q| && q[i] == m[Last(q)];
      ReentryIsCycle(m, q, i);
      CycleIsClosed(m, q[i..]);
      WalkStaysInside(m, q, p);
      assert false;
    }
    if |q| < |p| {
      WalksAgree(m, b, p, q, |q| - 1);
      assert false;
    } else if |p| < |q| {
      WalksAgree(m, b, p, q, |p| - 1);
      assert false;
    }
    WalksAgree(m, b, p, q, |p| - 1);
    assert Last(q) == a;
    assert IsCycle(n, q);
  }

  /** When a walk re-enters itself, every walk from the same node stays inside the map. */
  lemma {:induction false} WalkStaysInside<T(!new)>(m: map<T, T>, q: seq<T>, p: seq<T>)
    requires q != [] && IsWalk(m, q) && Last(q) in m && m[Last(q)] in q
    requires WalkFrom(m, q[0], p)
    ensures Last(p) in m
  {
    forall x | x in q
      ensures x in m && m[x] in q
    {
      var i :| 0 <= i < |q| && q[i] == x;
      if i < |q| - 1 { assert m[q[i]] == q[i + 1]; }
    }
    assert Closed(m, Elements(q));
    ClosedSpreads(m, Elements(q), p, 0, |p| - 1);
  }

  lemma NewCycleUsesLink<T(!new)>(m: map<T, T>, a: T, b: T, c: seq<T>)
    requires a !in m && IsCycle(m[a := b], c)
    ensures IsCycle(m, c) || Reaches(m, b, a)
  {
    var n := m[a := b];
    if a !in c {
      assert IsCycle(m, c);
    } else {
      var i :| 0 <= i < |c| && c[i] == a;
      var p := c[i + 1..] + c[..i + 1];
      assert Last(p) == a;
      assert p[0] == n[a];
      forall k | 0 <= k < |p| - 1
        ensures p[k] in m && m[p[k]] == p[k + 1]
      {
        var j := if k < |c| - i - 1 then i + 1 + k else k - (|c| - i - 1);
        assert p[k] == c[j] && j != i;
        assert c[j] != a;
        if j < |c| - 1 {
          assert n[c[j]] == c[j + 1];
          assert p[k + 1] == c[j + 1];
        } else {
          assert n[c[j]] == c[0];
          assert p[k + 1] == c[0];
        }
      }
      assert WalkFrom(m, b, p);
    }
  }

  /** Linking a sink `a` to `b` keeps the map acyclic exactly when `b` does not already lead to `a`. */
  lemma LinkAcyclicIff<T(!new)>(m: map<T, T>, a: T, b: T)
    requires a !in m
    ensures Acyclic(m[a := b]) <==> Acyclic(m) && !Reaches(m, b, a)
  {
    if Acyclic(m[a := b]) {
      if c :| IsCycle(m, c) { LinkKeepsCycles(m, a, b, c); assert false; }
      if Reaches(m, b, a) { ReachingLinkClosesCycle(m, a, b); assert false; }
    } else {
      var c :| IsCycle(m[a := b], c);
      NewCycleUsesLink(m, a, b, c);
    }
  }

  /** From a sink only the sink itself can be reached. */
  lemma SinkReachesOnlyItself<T(!new)>(m: map<T, T>, x: T, y: T)
    requires x !in m
    ensures Reaches(m, x, y) <==> x == y
  {
    if x == y {
      assert WalkFrom(m, x, [x]) && Last([x]) == y;
    } else {
      forall p | WalkFrom(m, x, p)
        ensures Last(p) != y
      {
        if |p| > 1 { assert false; }
      }
    }
  }
}
