/** Compression artifacts: their lifecycle table and the supersession chain walk. */
module Compression {
  import opened Ordering
  import opened Outcomes
  import opened SuccessorGraph

  const DEPTH_LIMIT: nat := 50

  datatype Status = Candidate | Active | Superseded | Invalidated

  datatype Artifact = Artifact(
    status: Status,
    promoted: Option<(string, string, string)>,     // by, at, notes
    supersededBy: Option<int>,
    superseded: Option<(string, string, string)>,   // at, reason, operator
    invalidated: Option<(string, string)>)          // at, reason

  type Rows = map<int, Artifact>

  const FRESH: Artifact := Artifact(Candidate, None, None, None, None)

  datatype Op =
    | Create(id: int)
    | Promote(id: int, actor: string, notes: string, now: string)
    | Invalidate(id: int, reason: string, actor: string, now: string)
    | Supersede(id: int, replacement: int, reason: string, operator: string, now: string)

  /** The row an operation writes under `op.id`, or the exception it raises. */
  function Outcome(rows: Rows, op: Op): Result<Artifact> {
    match op
    case Create(id) =>
      if id in rows then Err(IntegrityError) else Ok(FRESH)
    case Promote(id, actor, notes, now) =>
      if Blank(actor) || Blank(notes) then Err(ValueError)
      else if id !in rows || rows[id].status != Candidate then Err(GovernanceInvalidationError)
      else Ok(rows[id].(status := Active, promoted := Some((actor, now, notes))))
    case Invalidate(id, reason, actor, now) =>
      if Blank(reason) || Blank(actor) then Err(ValueError)
      else if id !in rows || rows[id].status !in {Candidate, Active} then Err(GovernanceInvalidationError)
      else Ok(rows[id].(status := Invalidated, invalidated := Some((now, reason))))
    case Supersede(id, replacement, reason, operator, now) =>
      if Blank(reason) || Blank(operator) || id == replacement then Err(ValueError)
      else if id !in rows || rows[id].status != Active || replacement !in rows then Err(ValueError)
      else Ok(rows[id].(status := Superseded, supersededBy := Some(replacement),
                        superseded := Some((now, reason, operator))))
  }

  function Step(rows: Rows, op: Op): Rows {
    match Outcome(rows, op)
    case Ok(row) => rows[op.id := row]
    case Err(_) => rows
  }

  function Run(rows: Rows, ops: seq<Op>): Rows {
    if ops == [] then rows else Step(Run(rows, ops[..|ops| - 1]), ops[|ops| - 1])
  }

  /** `superseded_by_artifact_id` as a partial successor map. */
  function Successors(rows: Rows): (m: map<int, int>) {
    map id | id in rows && rows[id].supersededBy.Some? :: rows[id].supersededBy.value
  }

  datatype Chain = Chain(root: int, ids: seq<int>, broken: bool, truncated: bool, cycle: bool)

  /** Everything the chain walk promises about its answer for a root that exists. */
  ghost predicate IsChain(rows: Rows, root: int, c: Chain) {
    var m := Successors(rows);
    && c.root == root
    && WalkFrom(m, root, c.ids) && Distinct(c.ids) && |c.ids| <= DEPTH_LIMIT
    && (forall i | 0 <= i < |c.ids| :: c.ids[i] in rows)
    && (c.truncated <==> |c.ids| == DEPTH_LIMIT && Last(c.ids) in m)
    && (c.cycle <==> |c.ids| < DEPTH_LIMIT && Last(c.ids) in m && m[Last(c.ids)] in c.ids)
    && (c.broken <==> |c.ids| < DEPTH_LIMIT && Last(c.ids) in m && m[Last(c.ids)] !in rows)
    && (Last(c.ids) !in m || c.truncated || c.cycle || c.broken)
  }

  class ArtifactStore {
    var rows: Rows

    constructor ()
      ensures rows == map[]
    {
      rows := map[];
    }

    method Promote(id: int, actor: string, notes: string, now: string) returns (r: Result<Artifact>)
      modifies this
      ensures r == Outcome(old(rows), Op.Promote(id, actor, notes, now))
      ensures rows == Step(old(rows), Op.Promote(id, actor, notes, now))
    {
      if Blank(actor) || Blank(notes) { return Err(ValueError); }
      if id !in rows { return Err(GovernanceInvalidationError); }
      if rows[id].status != Candidate { return Err(GovernanceInvalidationError); }
      rows := rows[id := rows[id].(status := Active)];
      rows := rows[id := rows[id].(promoted := Some((actor, now, notes)))];
      return Ok(rows[id]);
    }

    method Invalidate(id: int, reason: string, actor: string, now: string) returns (r: Result<Artifact>)
      modifies this
      ensures r == Outcome(old(rows), Op.Invalidate(id, reason, actor, now))
      ensures rows == Step(old(rows), Op.Invalidate(id, reason, actor, now))
    {
      if Blank(reason) || Blank(actor) { return Err(ValueError); }
      if id !in rows { return Err(GovernanceInvalidationError); }
      if rows[id].status != Candidate && rows[id].status != Active {
        return Err(GovernanceInvalidationError);
      }
      rows := rows[id := rows[id].(status := Invalidated, invalidated := Some((now, reason)))];
      return Ok(rows[id]);
    }

    method Supersede(id: int, replacement: int, reason: string, operator: string, now: string)
      returns (r: Result<Artifact>)
      modifies this
      ensures r == Outcome(old(rows), Op.Supersede(id, replacement, reason, operator, now))
      ensures rows == Step(old(rows), Op.Supersede(id, replacement, reason, operator, now))
    {
      if Blank(reason) || Blank(operator) { return Err(ValueError); }
      if id == replacement { return Err(ValueError); }
      if id !in rows { return Err(ValueError); }
      if rows[id].status != Active { return Err(ValueError); }
      if replacement !in rows { return Err(ValueError); }
      rows := rows[id := rows[id].(status := Superseded,
                                   superseded := Some((now, reason, operator)),
                                   supersededBy := Some(replacement))];
      return Ok(rows[id]);
    }

    /** The depth-limited walk with its three exit flags. */
    method GetSupersessionChain(root: int) returns (r: Result<Chain>)
      ensures r.Ok? <==> root in rows
      ensures r.Ok? ==> IsChain(rows, root, r.value)
      ensures r.Err? ==> r.error == ValueError
    {
      if root !in rows { return Err(ValueError); }
      ghost var m := Successors(rows);
      var ids := [root];
      var visited := {root};
      var broken, truncated, cycle := false, false, false;
      var current := root;
      var steps := 0;
      var exhausted := true;
      while steps < DEPTH_LIMIT - 1
        invariant 0 <= steps <= DEPTH_LIMIT - 1
        invariant ids != [] && ids[0] == root && IsWalk(m, ids) && Distinct(ids)
        invariant |ids| == steps + 1 && Last(ids) == current
        invariant visited == Elements(ids)
        invariant forall i | 0 <= i < |ids| :: ids[i] in rows
        invariant exhausted && !broken && !cycle
      {
        var next := rows[current].supersededBy;
        if next.None? {
          exhausted := false;
          break;
        }
        if next.value in visited {
          cycle := true;
          exhausted := false;
          break;
        }
        if next.value !in rows {
          broken := true;
          exhausted := false;
          break;
        }
        visited := visited + {next.value};
        current := next.value;
        ids := ids + [current];
        steps := steps + 1;
      }
      if exhausted {
        if rows[current].supersededBy.Some? {
          truncated := true;
        }
      }
      return Ok(Chain(root, ids, broken, truncated, cycle));
    }
  }

  // ---------------------------------------------------------------------------
  // The chain walk
  // ---------------------------------------------------------------------------

  lemma {:induction false} ChainNodesAgree(rows: Rows, root: int, c: Chain, d: Chain)
    requires IsChain(rows, root, c) && IsChain(rows, root, d)
    ensures |c.ids| <= |d.ids|
  {
    var m := Successors(rows);
    if |d.ids| < |c.ids| {
      var k := |d.ids| - 1;
      WalksAgree(m, root, c.ids, d.ids, k);
      assert c.ids[k] in m && m[c.ids[k]] == c.ids[k + 1];
      if d.cycle {
        var i :| 0 <= i < |d.ids| && d.ids[i] == m[Last(d.ids)];
        WalksAgree(m, root, c.ids, d.ids, i);
        assert false;
      }
      assert false;
    }
  }

  /** The walk's promises determine its answer: one chain per root. */
  lemma {:induction false} ChainIsDetermined(rows: Rows, root: int, c: Chain, d: Chain)
    requires IsChain(rows, root, c) && IsChain(rows, root, d)
    ensures c == d
  {
    ChainNodesAgree(rows, root, c, d);
    ChainNodesAgree(rows, root, d, c);
    forall k | 0 <= k < |c.ids|
      ensures c.ids[k] == d.ids[k]
    {
      WalksAgree(Successors(rows), root, c.ids, d.ids, k);
    }
    assert c.ids == d.ids;
  }

  /** `orbit` runs from the root without repetition until it re-enters itself. */
  ghost predicate ClosedOrbit(m: map<int, int>, root: int, orbit: seq<int>) {
    && WalkFrom(m, root, orbit) && Distinct(orbit)
    && Last(orbit) in m && m[Last(orbit)] in orbit
  }

  lemma ChainIsOrbitPrefix(m: map<int, int>, root: int, orbit: seq<int>, ids: seq<int>)
    requires ClosedOrbit(m, root, orbit) && WalkFrom(m, root, ids) && Distinct(ids)
    ensures |ids| <= |orbit| && ids == orbit[..|ids|]
  {
    if |ids| > |orbit| {
      var k := |orbit| - 1;
      WalksAgree(m, root, ids, orbit, k);
      var i :| 0 <= i < |orbit| && orbit[i] == m[orbit[k]];
      assert ids[i] != ids[k + 1] && m[ids[k]] == ids[k + 1];
      WalksAgree(m, root, ids, orbit, i);
      assert false;
    }
    forall k | 0 <= k < |ids|
      ensures ids[k] == orbit[k]
    {
      WalksAgree(m, root, ids, orbit, k);
    }
  }

  lemma OrbitNodesHaveLinks(m: map<int, int>, root: int, orbit: seq<int>, i: nat)
    requires ClosedOrbit(m, root, orbit) && i < |orbit|
    ensures orbit[i] in m
    ensures i < |orbit| - 1 ==> m[orbit[i]] == orbit[i + 1]
  {
    if i < |orbit| - 1 { assert m[orbit[i]] == orbit[i + 1]; }
  }

  /** A root whose links close after `n` distinct artifacts is reported as a cycle
      exactly when `n` is below the depth limit, and as merely truncated otherwise. */
  lemma ClosedOrbitFlag(rows: Rows, root: int, orbit: seq<int>, c: Chain)
    requires IsChain(rows, root, c) && ClosedOrbit(Successors(rows), root, orbit)
    ensures c.cycle <==> |orbit| < 50
    ensures c.truncated <==> |orbit| >= 50
    ensures c.ids == if |orbit| < 50 then orbit else orbit[..50]
  {
    var m := Successors(rows);
    var n := |c.ids|;
    ChainIsOrbitPrefix(m, root, orbit, c.ids);
    OrbitNodesHaveLinks(m, root, orbit, n - 1);
    assert Last(c.ids) == orbit[n - 1];
    if n < |orbit| {
      OrbitNodesHaveLinks(m, root, orbit, n);
      assert orbit[n] in rows && orbit[n] !in c.ids;
    } else {
      assert c.ids == orbit;
    }
  }

  /** `cycle_detected` is never a false alarm: the suffix from the re-entered artifact is a cycle. */
  lemma FlaggedSuffixIsCycle(rows: Rows, root: int, c: Chain)
    requires IsChain(rows, root, c) && c.cycle
    ensures exists i :: 0 <= i < |c.ids| && Elements(c.ids[i..]) in CycleSets(Successors(rows))
  {
    var m := Successors(rows);
    var i :| 0 <= i < |c.ids| && c.ids[i] == m[Last(c.ids)];
    ReentryIsCycle(m, c.ids, i);
    assert Elements(c.ids[i..]) in CycleSets(m);
  }

  // ---------------------------------------------------------------------------
  // The lifecycle table over all runs
  // ---------------------------------------------------------------------------

  /** Column groups and status agree, and every link points at an existing other row. */
  ghost predicate Governed(rows: Rows) {
    forall id | id in rows ::
      var a := rows[id];
      && (a.status == Superseded <==> a.supersededBy.Some?)
      && (a.status == Superseded <==> a.superseded.Some?)
      && (a.status == Invalidated <==> a.invalidated.Some?)
      && (a.status in {Active, Superseded} ==> a.promoted.Some?)
      && (a.supersededBy.Some? ==> a.supersededBy.value in rows && a.supersededBy.value != id)
  }

  ghost predicate Terminal(s: Status) { s == Superseded || s == Invalidated }

  lemma {:induction false} RunIsGoverned(ops: seq<Op>)
    ensures Governed(Run(map[], ops))
  {
    if ops != [] { RunIsGoverned(ops[..|ops| - 1]); }
  }

  /** Every change on record names who made it and why. */
  ghost predicate Recorded(a: Artifact) {
    && (a.promoted.Some? ==> !Blank(a.promoted.value.0) && !Blank(a.promoted.value.2))
    && (a.superseded.Some? ==> !Blank(a.superseded.value.1) && !Blank(a.superseded.value.2))
    && (a.invalidated.Some? ==> !Blank(a.invalidated.value.1))
  }

  ghost predicate AllRecorded(rows: Rows) {
    forall id | id in rows :: Recorded(rows[id])
  }

  lemma {:induction false} ChangesAreRecorded(ops: seq<Op>)
    ensures AllRecorded(Run(map[], ops))
  {
    hide Blank, AllRecorded, Step;
    if ops == [] {
      NoRows();
    } else {
      ChangesAreRecorded(ops[..|ops| - 1]);
      StepIsRecorded(Run(map[], ops[..|ops| - 1]), ops[|ops| - 1]);
    }
  }

  lemma NoRows()
    ensures AllRecorded(map[])
  {
  }

  lemma StepIsRecorded(rows: Rows, op: Op)
    requires AllRecorded(rows)
    ensures AllRecorded(Step(rows, op))
  {
    hide Blank;
    var after := Step(rows, op);
    forall id | id in after
      ensures Recorded(after[id])
    {
      if id in rows { assert Recorded(rows[id]); }
    }
  }

  /** Which changes of a stored row are accepted. */
  lemma ChangeAcceptedIff(rows: Rows, id: int, replacement: int, actor: string, text: string, now: string)
    requires id in rows
    ensures Outcome(rows, Op.Promote(id, actor, text, now)).Ok? <==>
              rows[id].status == Candidate && !Blank(actor) && !Blank(text)
    ensures Outcome(rows, Op.Invalidate(id, text, actor, now)).Ok? <==>
              (rows[id].status == Candidate || rows[id].status == Active) && !Blank(actor) && !Blank(text)
    ensures Outcome(rows, Op.Supersede(id, replacement, text, actor, now)).Ok? <==>
              && rows[id].status == Active && replacement in rows && replacement != id
              && !Blank(actor) && !Blank(text)
  {
    hide Blank;
  }

  /** A terminal row is frozen: no run changes any of its columns. */
  lemma {:induction false} TerminalRowsAreFrozen(rows: Rows, ops: seq<Op>, id: int)
    requires id in rows && Terminal(rows[id].status)
    ensures id in Run(rows, ops) && Run(rows, ops)[id] == rows[id]
  {
    if ops != [] { TerminalRowsAreFrozen(rows, ops[..|ops| - 1], id); }
  }

  /** In a reachable table `chain_broken` is never raised. */
  lemma ReachableChainIsUnbroken(ops: seq<Op>, root: int, c: Chain)
    requires IsChain(Run(map[], ops), root, c)
    ensures !c.broken
  {
    RunIsGoverned(ops);
    var rows := Run(map[], ops);
    var m, last := Successors(rows), Last(c.ids);
    assert c.ids[|c.ids| - 1] in rows;
    if last in m {
      assert rows[last].supersededBy.value in rows;
      assert m[last] in rows;
    }
  }

  /** Superseding keeps the links acyclic exactly when the replacement does not already
      lead back to the superseded artifact; the source does not check this. */
  lemma SupersedeKeepsAcyclicIff(rows: Rows, op: Op)
    requires Governed(rows) && op.Supersede? && Outcome(rows, op).Ok?
    ensures Acyclic(Successors(Step(rows, op)))
       <==> Acyclic(Successors(rows)) && !Reaches(Successors(rows), op.replacement, op.id)
  {
    assert Successors(Step(rows, op)) == Successors(rows)[op.id := op.replacement];
    LinkAcyclicIff(Successors(rows), op.id, op.replacement);
  }

  /** The guard the source omits, an active replacement, is enough. */
  lemma ActiveReplacementKeepsAcyclic(rows: Rows, op: Op)
    requires Governed(rows) && Acyclic(Successors(rows))
    requires op.Supersede? && Outcome(rows, op).Ok? && rows[op.replacement].status == Active
    ensures Acyclic(Successors(Step(rows, op)))
  {
    SupersedeKeepsAcyclicIff(rows, op);
    SinkReachesOnlyItself(Successors(rows), op.replacement, op.id);
  }

  // ---------------------------------------------------------------------------
  // Cycles of every length are reachable
  // ---------------------------------------------------------------------------

  const OPERATOR := "op"

  const ACTIVATED: Artifact := FRESH.(status := Active, promoted := Some((OPERATOR, "", OPERATOR)))

  function Linked(to: int): Artifact {
    ACTIVATED.(status := Superseded, supersededBy := Some(to), superseded := Some(("", OPERATOR, OPERATOR)))
  }

  function Next(n: nat, i: nat): nat { if i + 1 < n then i + 1 else 0 }

  function Creations(n: nat): seq<Op> {
    if n == 0 then [] else Creations(n - 1) + [Op.Create(n - 1)]
  }

  function Promotions(n: nat): seq<Op> {
    if n == 0 then [] else Promotions(n - 1) + [Op.Promote(n - 1, OPERATOR, OPERATOR, "")]
  }

  /** The first `k` of `n` artifacts superseded by their neighbours, the last by the first. */
  function Supersessions(n: nat, k: nat): seq<Op> {
    if k == 0 then [] else Supersessions(n, k - 1) + [Op.Supersede(k - 1, Next(n, k - 1), OPERATOR, OPERATOR, "")]
  }

  function RingRows(n: nat, active: nat, linked: nat): Rows {
    map i | 0 <= i < n :: if i < linked then Linked(Next(n, i)) else if i < active then ACTIVATED else FRESH
  }

  lemma RunSnoc(rows: Rows, ops: seq<Op>, op: Op)
    ensures Run(rows, ops + [op]) == Step(Run(rows, ops), op)
  {
    assert (ops + [op])[..|ops|] == ops;
  }

  lemma {:induction false} RunConcat(rows: Rows, a: seq<Op>, b: seq<Op>)
    ensures Run(rows, a + b) == Run(Run(rows, a), b)
  {
    hide Step;
    if b == [] {
      assert a + b == a;
    } else {
      RunConcat(rows, a, b[..|b| - 1]);
      assert (a + b)[..|a + b| - 1] == a + b[..|b| - 1];
    }
  }

  lemma TextIsNotBlank()
    ensures !Blank(OPERATOR)
  {
    assert !IsSpace(OPERATOR[0]);
  }

  lemma {:induction false} RunCreations(n: nat)
    ensures Run(map[], Creations(n)) == RingRows(n, 0, 0)
  {
    if n > 0 {
      RunCreations(n - 1);
      RunSnoc(map[], Creations(n - 1), Op.Create(n - 1));
    }
  }

  lemma PromoteOne(n: nat, k: nat)
    requires k < n
    ensures Step(RingRows(n, k, 0), Op.Promote(k, OPERATOR, OPERATOR, "")) == RingRows(n, k + 1, 0)
  {
    hide Blank, OPERATOR, Next;
    TextIsNotBlank();
  }

  lemma {:induction false} RunPromotions(n: nat, k: nat)
    requires k <= n
    ensures Run(RingRows(n, 0, 0), Promotions(k)) == RingRows(n, k, 0)
  {
    hide Step, RingRows, OPERATOR, Next;
    if k > 0 {
      RunPromotions(n, k - 1);
      RunSnoc(RingRows(n, 0, 0), Promotions(k - 1), Op.Promote(k - 1, OPERATOR, OPERATOR, ""));
      PromoteOne(n, k - 1);
    }
  }

  lemma SupersedeOne(n: nat, k: nat)
    requires 2 <= n && k < n
    ensures Step(RingRows(n, n, k), Op.Supersede(k, Next(n, k), OPERATOR, OPERATOR, "")) == RingRows(n, n, k + 1)
  {
    hide Blank, OPERATOR;
    TextIsNotBlank();
    assert Next(n, k) != k && Next(n, k) < n;
    hide Next;
    var rows := RingRows(n, n, k);
    assert rows[k] == ACTIVATED;
  }

  lemma {:induction false} RunSupersessions(n: nat, k: nat)
    requires 2 <= n && k <= n
    ensures Run(RingRows(n, n, 0), Supersessions(n, k)) == RingRows(n, n, k)
  {
    hide Step, RingRows, OPERATOR, Next;
    if k > 0 {
      RunSupersessions(n, k - 1);
      RunSnoc(RingRows(n, n, 0), Supersessions(n, k - 1),
              Op.Supersede(k - 1, Next(n, k - 1), OPERATOR, OPERATOR, ""));
      SupersedeOne(n, k - 1);
    }
  }

  function RingOps(n: nat): seq<Op> {
    Creations(n) + Promotions(n) + Supersessions(n, n)
  }

  lemma RunRing(n: nat)
    requires 2 <= n
    ensures Run(map[], RingOps(n)) == RingRows(n, n, n)
  {
    hide Step, RingRows;
    RunCreations(n);
    RunPromotions(n, n);
    RunSupersessions(n, n);
    RunConcat(map[], Creations(n), Promotions(n));
    RunConcat(map[], Creations(n) + Promotions(n), Supersessions(n, n));
  }

  function UpTo(n: nat): seq<int> {
    seq(n, i requires 0 <= i < n => i)
  }

  lemma RingIsCycle(n: nat)
    requires 2 <= n
    ensures IsCycle(Successors(RingRows(n, n, n)), UpTo(n))
    ensures ClosedOrbit(Successors(RingRows(n, n, n)), 0, UpTo(n))
  {
    var m, c := Successors(RingRows(n, n, n)), UpTo(n);
    assert forall i | 0 <= i < n :: i in m && m[i] == Next(n, i) && c[i] == i;
    assert Last(c) == n - 1 && c[0] == 0 && 0 in c;
  }

  /** Acyclicity is not an invariant: for every length above one, accepted calls from the empty table
      link that many artifacts in a circle. */
  lemma CyclesAreReachable(n: nat)
    requires 2 <= n
    ensures IsCycle(Successors(Run(map[], RingOps(n))), UpTo(n))
  {
    hide *;
    RunRing(n);
    RingIsCycle(n);
  }

  /** A reachable circle of fifty or more artifacts is reported as truncated and not as a cycle; a
      shorter one as a cycle and not as truncated. */
  lemma ReachableCycleFlag(n: nat, c: Chain)
    requires 2 <= n && IsChain(Run(map[], RingOps(n)), 0, c)
    ensures c.cycle <==> n < 50
    ensures c.truncated <==> n >= 50
  {
    hide IsChain, Run, RingOps, IsCycle, ClosedOrbit, Successors;
    RunRing(n);
    RingIsCycle(n);
    ClosedOrbitFlag(Run(map[], RingOps(n)), 0, UpTo(n), c);
  }
}
