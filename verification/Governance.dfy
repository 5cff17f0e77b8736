/** The supersession cycle detector over compression artifacts. */
module Governance {
  import opened Ordering
  import opened SuccessorGraph
  import Compression

  ghost predicate LeadsInto(m: map<int, int>, x: int, s: set<int>) {
    exists y :: y in s && Reaches(m, x, y)
  }

  lemma IntLeTotal(s: set<int>)
    ensures TotalOrderOn(s, IntLe)
  {
  }

  // ---------------------------------------------------------------------------
  // One start id discovers exactly the cycle it leads into, if any
  // ---------------------------------------------------------------------------

  /** `p` is the inner walk of the detector, run to its end. */
  ghost predicate InnerWalk(m: map<int, int>, x: int, p: seq<int>) {
    WalkFrom(m, x, p) && Distinct(p) && forall i | 0 <= i < |p| :: p[i] in m
  }

  /** A walk that re-entered itself at `i` leads into no cycle but its own suffix. */
  lemma MeetsOwnCycle(m: map<int, int>, x: int, p: seq<int>, i: nat, cyc: seq<int>, q: seq<int>)
    requires InnerWalk(m, x, p) && i < |p| && m[Last(p)] == p[i]
    requires IsCycle(m, cyc) && WalkFrom(m, x, q) && Last(q) in cyc
    ensures Elements(cyc) == Elements(p[i..])
  {
    CycleIsClosed(m, cyc);
    ReentryIsCycle(m, p, i);
    ReachedIsWalked(m, x, p, i, q);
    var k :| 0 <= k < |p| && p[k] == Last(q);
    if k < i {
      ClosedSpreads(m, Elements(cyc), p, k, i);
      CyclesMeetingCoincide(m, cyc, p[i..], p[i..][0]);
    } else {
      CyclesMeetingCoincide(m, cyc, p[i..], p[i..][k - i]);
    }
  }

  lemma ReachedIsWalked(m: map<int, int>, x: int, p: seq<int>, i: nat, q: seq<int>)
    requires InnerWalk(m, x, p) && i < |p| && m[Last(p)] == p[i]
    requires WalkFrom(m, x, q)
    ensures Last(q) in p
  {
    forall z | z in p
      ensures z in m && m[z] in p
    {
      var k :| 0 <= k < |p| && p[k] == z;
      if k < |p| - 1 { assert m[p[k]] == p[k + 1]; }
    }
    ClosedSpreads(m, Elements(p), q, 0, |q| - 1);
  }

  /** A walk that left the map leads into no cycle. */
  lemma EndedWalkMeetsNone(m: map<int, int>, x: int, p: seq<int>, cyc: seq<int>, q: seq<int>)
    requires InnerWalk(m, x, p) && m[Last(p)] !in m
    requires IsCycle(m, cyc) && WalkFrom(m, x, q)
    ensures Last(q) !in cyc
  {
    CycleIsClosed(m, cyc);
    var out := p + [m[Last(p)]];
    WalkSnoc(m, x, p);
    LeavesBeforeCycle(m, x, out, cyc, q);
  }

  lemma WalkSnoc(m: map<int, int>, x: int, p: seq<int>)
    requires WalkFrom(m, x, p) && Last(p) in m
    ensures WalkFrom(m, x, p + [m[Last(p)]])
  {
  }

  lemma LeavesBeforeCycle(m: map<int, int>, x: int, out: seq<int>, cyc: seq<int>, q: seq<int>)
    requires WalkFrom(m, x, out) && Last(out) !in m && Closed(m, Elements(cyc))
    requires WalkFrom(m, x, q)
    ensures Last(q) !in cyc
  {
    if |q| <= |out| {
      WalksAgree(m, x, out, q, |q| - 1);
      if Last(q) in cyc { ClosedSpreads(m, Elements(cyc), out, |q| - 1, |out| - 1); }
    } else {
      WalksAgree(m, x, out, q, |out| - 1);
    }
  }

  lemma CycleNodeLeadsInto(m: map<int, int>, c: seq<int>)
    requires IsCycle(m, c)
    ensures c[0] in m && LeadsInto(m, c[0], Elements(c))
  {
    CycleIsClosed(m, c);
    assert WalkFrom(m, c[0], [c[0]]) && Last([c[0]]) == c[0];
  }

  // ---------------------------------------------------------------------------
  // The detector
  // ---------------------------------------------------------------------------

  /** What `issues` holds once the start ids in `done` have been processed:
      `starts[i]` is the id from which issue `i` was found. */
  ghost predicate Found(m: map<int, int>, done: set<int>, issues: seq<seq<int>>, starts: seq<int>) {
    && |starts| == |issues|
    && (forall i | 0 <= i < |issues| ::
          && starts[i] in done
          && Elements(issues[i]) in CycleSets(m)
          && IsListing(issues[i], Elements(issues[i]), IntLe)
          && LeadsInto(m, starts[i], Elements(issues[i])))
    && (forall i, j | 0 <= i < j < |issues| :: Elements(issues[i]) != Elements(issues[j]))
    && (forall x, c | x in done && c in CycleSets(m) && LeadsInto(m, x, c) ::
          exists i :: 0 <= i < |issues| && Elements(issues[i]) == c)
  }

  /** Issues come in the order of the least id that leads into their cycle. */
  ghost predicate DiscoveryOrder(m: map<int, int>, issues: seq<seq<int>>, starts: seq<int>) {
    && |starts| == |issues|
    && (forall i, j | 0 <= i < j < |starts| :: starts[i] < starts[j])
    && (forall i, x | 0 <= i < |issues| && x in m && LeadsInto(m, x, Elements(issues[i])) :: starts[i] <= x)
    && (forall i | 0 <= i < |issues| :: starts[i] in m && LeadsInto(m, starts[i], Elements(issues[i])))
  }

  function IdSets(issues: seq<seq<int>>): set<set<int>> {
    set issue | issue in issues :: Elements(issue)
  }

  lemma IdSetsSnoc(issues: seq<seq<int>>, issue: seq<int>)
    ensures IdSets(issues + [issue]) == IdSets(issues) + {Elements(issue)}
  {
    forall s | s in IdSets(issues) + {Elements(issue)}
      ensures s in IdSets(issues + [issue])
    {
      if s != Elements(issue) {
        var known :| known in issues && Elements(known) == s;
        assert known in issues + [issue];
      } else {
        assert issue in issues + [issue];
      }
    }
  }

  ghost predicate Reported(issues: seq<seq<int>>, s: set<int>) {
    exists i :: 0 <= i < |issues| && Elements(issues[i]) == s
  }

  lemma FoundMore(m: map<int, int>, done: set<int>, issues: seq<seq<int>>, starts: seq<int>,
                  x: int, p: seq<int>, i: nat, sorted: seq<int>)
    requires Found(m, done, issues, starts) && InnerWalk(m, x, p)
    requires i < |p| && m[Last(p)] == p[i]
    requires IsListing(sorted, Elements(p[i..]), IntLe)
    requires !Reported(issues, Elements(p[i..]))
    ensures Found(m, done + {x}, issues + [sorted], starts + [x])
  {
    ReentryIsCycle(m, p, i);
    var c := Elements(p[i..]);
    assert Elements(sorted) == c;
    assert c in CycleSets(m);
    assert WalkFrom(m, x, p[..i + 1]) && Last(p[..i + 1]) == p[i];
    assert p[i..][0] in c;
    assert LeadsInto(m, x, c);
    var more := issues + [sorted];
    forall y, d | y in done + {x} && d in CycleSets(m) && LeadsInto(m, y, d)
      ensures Reported(more, d)
    {
      if y in done {
        var k :| 0 <= k < |issues| && Elements(issues[k]) == d;
        assert Elements(more[k]) == d;
      } else {
        OwnCycleOnly(m, x, p, i, d);
        assert Elements(more[|issues|]) == d;
      }
    }
  }

  lemma OwnCycleOnly(m: map<int, int>, x: int, p: seq<int>, i: nat, d: set<int>)
    requires InnerWalk(m, x, p) && i < |p| && m[Last(p)] == p[i]
    requires d in CycleSets(m) && LeadsInto(m, x, d)
    ensures d == Elements(p[i..])
  {
    var cyc: seq<int> :| IsCycle(m, cyc) && Elements(cyc) == d;
    var y :| y in d && Reaches(m, x, y);
    var q :| WalkFrom(m, x, q) && Last(q) == y;
    MeetsOwnCycle(m, x, p, i, cyc, q);
  }

  lemma LeadsNowhere(m: map<int, int>, x: int, p: seq<int>, d: set<int>)
    requires InnerWalk(m, x, p) && m[Last(p)] !in m
    requires d in CycleSets(m)
    ensures !LeadsInto(m, x, d)
  {
    var cyc: seq<int> :| IsCycle(m, cyc) && Elements(cyc) == d;
    forall q | WalkFrom(m, x, q)
      ensures Last(q) !in d
    {
      EndedWalkMeetsNone(m, x, p, cyc, q);
    }
  }

  lemma FoundSeen(m: map<int, int>, done: set<int>, issues: seq<seq<int>>, starts: seq<int>,
                  x: int, p: seq<int>, i: nat)
    requires Found(m, done, issues, starts) && InnerWalk(m, x, p)
    requires i < |p| && m[Last(p)] == p[i]
    requires Reported(issues, Elements(p[i..]))
    ensures Found(m, done + {x}, issues, starts)
  {
    forall y, d | y in done + {x} && d in CycleSets(m) && LeadsInto(m, y, d)
      ensures Reported(issues, d)
    {
      if y == x { OwnCycleOnly(m, x, p, i, d); }
    }
  }

  lemma FoundNothing(m: map<int, int>, done: set<int>, issues: seq<seq<int>>, starts: seq<int>,
                     x: int, p: seq<int>)
    requires Found(m, done, issues, starts) && InnerWalk(m, x, p) && m[Last(p)] !in m
    ensures Found(m, done + {x}, issues, starts)
  {
    forall y, d | y in done + {x} && d in CycleSets(m) && LeadsInto(m, y, d)
      ensures Reported(issues, d)
    {
      if y == x { LeadsNowhere(m, x, p, d); }
    }
  }

  lemma OrderMore(m: map<int, int>, done: set<int>, issues: seq<seq<int>>, starts: seq<int>,
                  x: int, sorted: seq<int>)
    requires Found(m, done, issues, starts) && DiscoveryOrder(m, issues, starts)
    requires x in m && (forall y :: y in done <==> y in m && y < x)
    requires !Reported(issues, Elements(sorted)) && LeadsInto(m, x, Elements(sorted))
    requires Elements(sorted) in CycleSets(m)
    ensures DiscoveryOrder(m, issues + [sorted], starts + [x])
  {
    var more, from := issues + [sorted], starts + [x];
    forall i, y | 0 <= i < |more| && y in m && LeadsInto(m, y, Elements(more[i]))
      ensures from[i] <= y
    {
      if i < |issues| { assert more[i] == issues[i]; } else { assert y !in done; }
    }
    forall i | 0 <= i < |more|
      ensures from[i] in m && LeadsInto(m, from[i], Elements(more[i]))
    {
      if i < |issues| { assert more[i] == issues[i]; }
    }
  }

  lemma CompleteWhenAllDone(m: map<int, int>, issues: seq<seq<int>>, starts: seq<int>)
    requires Found(m, m.Keys, issues, starts)
    ensures forall i | 0 <= i < |issues| :: IsListing(issues[i], Elements(issues[i]), IntLe)
    ensures (iset i | 0 <= i < |issues| :: Elements(issues[i])) == CycleSets(m)
    ensures forall i, j | 0 <= i < j < |issues| :: Elements(issues[i]) !! Elements(issues[j])
  {
    forall c | c in CycleSets(m)
      ensures exists i :: 0 <= i < |issues| && Elements(issues[i]) == c
    {
      var cyc: seq<int> :| IsCycle(m, cyc) && Elements(cyc) == c;
      CycleNodeLeadsInto(m, cyc);
    }
    forall i, j | 0 <= i < j < |issues|
      ensures Elements(issues[i]) !! Elements(issues[j])
    {
      if x :| x in Elements(issues[i]) && x in Elements(issues[j]) {
        var c: seq<int> :| IsCycle(m, c) && Elements(c) == Elements(issues[i]);
        var d: seq<int> :| IsCycle(m, d) && Elements(d) == Elements(issues[j]);
        CyclesMeetingCoincide(m, c, d, x);
        assert false;
      }
    }
  }

  /** The first index of `x`, as `list.index` finds it. */
  method IndexOf(p: seq<int>, x: int) returns (i: nat)
    requires x in p
    ensures i < |p| && p[i] == x && x !in p[..i]
  {
    i := 0;
    while p[i] != x
      invariant i < |p| && x !in p[..i]
      invariant exists k :: i <= k < |p| && p[k] == x
      decreases |p| - i
    {
      i := i + 1;
    }
  }

  /** The inner loop: follow the links until they leave the map or repeat. */
  method Follow(successor: map<int, int>, start: int) returns (visitedOrder: seq<int>, current: int)
    requires start in successor
    ensures InnerWalk(successor, start, visitedOrder) && successor[Last(visitedOrder)] == current
    ensures current in visitedOrder || current !in successor
  {
    visitedOrder := [];
    var visitedSet := {};
    current := start;
    while current in successor && current !in visitedSet
      invariant visitedSet == Elements(visitedOrder) && visitedSet <= successor.Keys
      invariant visitedOrder == [] ==> current == start
      invariant visitedOrder != [] ==> InnerWalk(successor, start, visitedOrder)
      invariant visitedOrder != [] ==> successor[Last(visitedOrder)] == current
      decreases successor.Keys - visitedSet
    {
      visitedOrder := visitedOrder + [current];
      visitedSet := visitedSet + {current};
      current := successor[current];
    }
  }

  /** Sound, complete and duplicate-free: the reported id lists are exactly the cycles of the
      supersession links, each once, ascending, in the order of their least discoverer. */
  method DetectSupersessionCycles(rows: Compression.Rows) returns (issues: seq<seq<int>>)
    ensures forall i | 0 <= i < |issues| :: IsListing(issues[i], Elements(issues[i]), IntLe)
    ensures (iset i | 0 <= i < |issues| :: Elements(issues[i])) == CycleSets(Compression.Successors(rows))
    ensures forall i, j | 0 <= i < j < |issues| :: Elements(issues[i]) !! Elements(issues[j])
    ensures exists starts: seq<int> :: DiscoveryOrder(Compression.Successors(rows), issues, starts)
  {
    hide *;
    var successor := Compression.Successors(rows);
    IntLeTotal(successor.Keys);
    NothingFoundYet(successor);
    var ids := SortedBy(successor.Keys, IntLe);
    issues := [];
    var reported: set<set<int>> := {};
    ghost var starts: seq<int> := [];
    for n := 0 to |ids|
      invariant Found(successor, Elements(ids[..n]), issues, starts)
      invariant DiscoveryOrder(successor, issues, starts)
      invariant reported == IdSets(issues)
    {
      var start := ids[n];
      ListedIds(successor, ids, n);
      var visitedOrder, current := Follow(successor, start);
      DoneMore(ids, n);
      if current in visitedOrder {
        var at := IndexOf(visitedOrder, current);
        var cycleIds := visitedOrder[at..];
        if Elements(cycleIds) in reported {
          SeenIsReported(issues, Elements(cycleIds));
          FoundSeen(successor, Elements(ids[..n]), issues, starts, start, visitedOrder, at);
          continue;
        }
        reported := reported + {Elements(cycleIds)};
        IntLeTotal(Elements(cycleIds));
        var sorted := SortedBy(Elements(cycleIds), IntLe);
        Discover(successor, ids, n, issues, starts, visitedOrder, at, sorted);
        issues := issues + [sorted];
        starts := starts + [start];
      } else {
        FoundNothing(successor, Elements(ids[..n]), issues, starts, start, visitedOrder);
      }
    }
    AllDone(successor, ids);
    CompleteWhenAllDone(successor, issues, starts);
  }

  lemma SeenIsReported(issues: seq<seq<int>>, s: set<int>)
    requires s in IdSets(issues)
    ensures Reported(issues, s)
  {
  }

  lemma NothingFoundYet(m: map<int, int>)
    ensures Found(m, {}, [], []) && DiscoveryOrder(m, [], []) && IdSets([]) == {}
    ensures forall ids: seq<int> :: Elements(ids[..0]) == {}
  {
  }

  lemma ListedIds(m: map<int, int>, ids: seq<int>, n: nat)
    requires IsListing(ids, m.Keys, IntLe) && n < |ids|
    ensures ids[n] in m
  {
    assert ids[n] in ids;
  }

  lemma AllDone(m: map<int, int>, ids: seq<int>)
    requires IsListing(ids, m.Keys, IntLe)
    ensures Elements(ids[..|ids|]) == m.Keys
  {
    assert ids[..|ids|] == ids;
  }

  lemma Discover(m: map<int, int>, ids: seq<int>, n: nat, issues: seq<seq<int>>, starts: seq<int>,
                 p: seq<int>, i: nat, sorted: seq<int>)
    requires IsListing(ids, m.Keys, IntLe) && n < |ids|
    requires Found(m, Elements(ids[..n]), issues, starts) && DiscoveryOrder(m, issues, starts)
    requires InnerWalk(m, ids[n], p) && i < |p| && m[Last(p)] == p[i]
    requires IsListing(sorted, Elements(p[i..]), IntLe)
    requires Elements(p[i..]) !in IdSets(issues)
    ensures Found(m, Elements(ids[..n + 1]), issues + [sorted], starts + [ids[n]])
    ensures DiscoveryOrder(m, issues + [sorted], starts + [ids[n]])
    ensures IdSets(issues + [sorted]) == IdSets(issues) + {Elements(p[i..])}
  {
    var done, more := Elements(ids[..n]), issues + [sorted];
    assert Elements(sorted) == Elements(p[i..]);
    assert !Reported(issues, Elements(p[i..]));
    DoneBelow(m, ids, n);
    DoneMore(ids, n);
    FoundMore(m, done, issues, starts, ids[n], p, i, sorted);
    assert more[|issues|] == sorted && (starts + [ids[n]])[|issues|] == ids[n];
    assert ids[n] in ids;
    OrderMore(m, done, issues, starts, ids[n], sorted);
    IdSetsSnoc(issues, sorted);
  }

  lemma DoneBelow(m: map<int, int>, ids: seq<int>, n: nat)
    requires IsListing(ids, m.Keys, IntLe) && n < |ids|
    ensures forall y :: y in Elements(ids[..n]) <==> y in m && y < ids[n]
  {
    forall y
      ensures y in ids[..n] <==> y in m && y < ids[n]
    {
      if y in ids[..n] {
        var k :| 0 <= k < n && ids[..n][k] == y;
        assert ids[k] in ids && IntLe(ids[k], ids[n]);
      }
      if y in m && y < ids[n] {
        var k :| 0 <= k < |ids| && ids[k] == y;
        assert k < n;
        assert ids[..n][k] == y;
      }
    }
  }

  lemma DoneMore(ids: seq<int>, n: nat)
    requires n < |ids|
    ensures Elements(ids[..n + 1]) == Elements(ids[..n]) + {ids[n]}
  {
    assert ids[..n + 1] == ids[..n] + [ids[n]];
  }

  /** Whatever the chain walk flags as a cycle, the detector reports. */
  lemma ChainCycleIsReported(rows: Compression.Rows, root: int, c: Compression.Chain, issues: seq<seq<int>>)
    requires Compression.IsChain(rows, root, c) && c.cycle
    requires (iset i | 0 <= i < |issues| :: Elements(issues[i])) == CycleSets(Compression.Successors(rows))
    ensures exists i, k :: 0 <= i < |c.ids| && 0 <= k < |issues| && Elements(issues[k]) == Elements(c.ids[i..])
  {
    Compression.FlaggedSuffixIsCycle(rows, root, c);
    var i :| 0 <= i < |c.ids| && Elements(c.ids[i..]) in CycleSets(Compression.Successors(rows));
    var k :| 0 <= k < |issues| && Elements(issues[k]) == Elements(c.ids[i..]);
  }
}
