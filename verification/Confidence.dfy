/** The append-only log of confidence revisions. */
module Confidence {
  import opened Outcomes

  datatype Kind = Operator | Candidate | OtherKind

  datatype Status = Active | Superseded | Proposed | Rejected

  /** `approves` is the candidate named in the provenance of an approval. */
  datatype Revision = Revision(eventId: int, before: int, after: int, kind: Kind, status: Status,
                               actor: string, reason: string, approves: Option<nat>)

  /** `base` is the confidence column of the events; the revision with id k + 1 is `log[k]`. */
  datatype Db = Db(base: map<int, int>, log: seq<Revision>)

  const EMPTY: Db := Db(map[], [])

  // ---------------------------------------------------------------------------
  // Effective confidence
  // ---------------------------------------------------------------------------

  predicate Heads(r: Revision, eventId: int) { r.eventId == eventId && r.kind == Operator && r.status == Active }

  /** `confidence_after` of the newest active operator revision. */
  function Head(log: seq<Revision>, eventId: int): Option<int> {
    if log == [] then None
    else if Heads(log[|log| - 1], eventId) then Some(log[|log| - 1].after)
    else Head(log[..|log| - 1], eventId)
  }

  /** `get_effective_confidence`; None stands for its NotFoundError. */
  function Effective(db: Db, eventId: int): Option<int> {
    if Head(db.log, eventId).Some? then Head(db.log, eventId)
    else if eventId in db.base then Some(db.base[eventId])
    else None
  }

  /** The active operator revisions of the given events, ORDER BY id DESC. */
  function HeadRows(log: seq<Revision>, ids: seq<int>): seq<Revision> {
    if log == [] then []
    else
      var last, rest := log[|log| - 1], HeadRows(log[..|log| - 1], ids);
      if last.eventId in ids && Heads(last, last.eventId) then [last] + rest else rest
  }

  /** The first row of an event among `rows`. */
  function FirstAfter(rows: seq<Revision>, eventId: int): Option<int> {
    if rows == [] then None
    else if rows[0].eventId == eventId then Some(rows[0].after)
    else FirstAfter(rows[1..], eventId)
  }

  lemma {:induction false} FirstRowIsHead(log: seq<Revision>, ids: seq<int>, eventId: int)
    ensures FirstAfter(HeadRows(log, ids), eventId) == if eventId in ids then Head(log, eventId) else None
  {
    if log != [] {
      FirstRowIsHead(log[..|log| - 1], ids, eventId);
      var rest := HeadRows(log[..|log| - 1], ids);
      assert ([log[|log| - 1]] + rest)[1..] == rest;
    }
  }

  /** `get_effective_confidence_batch`: the first row of each event wins. */
  method GetEffectiveBatch(db: Db, ids: seq<int>) returns (result: map<int, int>)
    ensures forall id :: id in result <==> id in ids && Head(db.log, id).Some?
    ensures forall id | id in result :: Head(db.log, id) == Some(result[id])
  {
    hide HeadRows, Head;
    var rows := HeadRows(db.log, ids);
    result := map[];
    for i := 0 to |rows|
      invariant forall id | id in result :: FirstAfter(rows, id) == Some(result[id])
      invariant forall id | id !in result :: FirstAfter(rows, id) == FirstAfter(rows[i..], id)
    {
      assert rows[i..][0] == rows[i] && rows[i..][1..] == rows[i + 1..];
      var mid := rows[i].eventId;
      if mid !in result {
        result := result[mid := rows[i].after];
      }
    }
    assert rows[|rows|..] == [];
    forall id
      ensures id in result <==> id in ids && Head(db.log, id).Some?
      ensures id in result ==> Head(db.log, id) == Some(result[id])
    {
      FirstRowIsHead(db.log, ids, id);
    }
  }

  /** The batch lookup with the base confidence as its fallback is the single lookup. */
  lemma BatchEqualsSingle(db: Db, ids: seq<int>, result: map<int, int>, id: int)
    requires forall k :: k in result <==> k in ids && Head(db.log, k).Some?
    requires forall k | k in result :: Head(db.log, k) == Some(result[k])
    requires id in ids && id in db.base
    ensures Effective(db, id) == Some(if id in result then result[id] else db.base[id])
  {
    hide Head;
  }

  // ---------------------------------------------------------------------------
  // Operations
  // ---------------------------------------------------------------------------

  datatype Op =
    | AddEvent(eventId: int, confidence: int)
    | Revise(eventId: int, after: int, actor: string, reason: string, kind: Kind)
    | Reject(revisionId: int, actor: string, reason: string)
    | Approve(revisionId: int, actor: string, reason: string)

  function ReviseRefusal(db: Db, eventId: int, after: int, actor: string, reason: string, kind: Kind): Option<Error> {
    if kind == OtherKind || !(1 <= after <= 5) || Blank(actor) || Blank(reason) then Some(ValidationError)
    else if eventId !in db.base then Some(NotFoundError)
    else None
  }

  /** The refusal that rejecting and approving share. */
  function CandidateRefusal(db: Db, revisionId: int, actor: string, reason: string): Option<Error> {
    if Blank(actor) || Blank(reason) then Some(ValidationError)
    else if !(1 <= revisionId <= |db.log|) then Some(NotFoundError)
    else
      var r := db.log[revisionId - 1];
      if r.kind != Candidate || r.status != Proposed then Some(ValidationError) else None
  }

  /** The UPDATE that supersedes the active operator revisions of an event. */
  function Retire(log: seq<Revision>, eventId: int): (r: seq<Revision>)
    ensures |r| == |log|
  {
    seq(|log|, i requires 0 <= i < |log| => if Heads(log[i], eventId) then log[i].(status := Superseded) else log[i])
  }

  function Revised(db: Db, eventId: int, after: int, actor: string, reason: string, kind: Kind,
                   approves: Option<nat>): Db
    requires eventId in db.base
  {
    var before := Effective(db, eventId).value;
    var status := if kind == Operator then Active else Proposed;
    var row := Revision(eventId, before, after, kind, status, actor, reason, approves);
    db.(log := (if kind == Operator then Retire(db.log, eventId) else db.log) + [row])
  }

  function Step(db: Db, op: Op): Db {
    match op
    case AddEvent(id, confidence) =>
      if id in db.base || !(1 <= confidence <= 5) then db else db.(base := db.base[id := confidence])
    case Revise(id, after, actor, reason, kind) =>
      if ReviseRefusal(db, id, after, actor, reason, kind).Some? then db
      else Revised(db, id, after, actor, reason, kind, None)
    case Reject(rid, actor, reason) =>
      if CandidateRefusal(db, rid, actor, reason).Some? then db
      else db.(log := db.log[rid - 1 := db.log[rid - 1].(status := Rejected)])
    case Approve(rid, actor, reason) =>
      if CandidateRefusal(db, rid, actor, reason).Some? then db
      else
        var c := db.log[rid - 1];
        if ReviseRefusal(db, c.eventId, c.after, actor, reason, Operator).Some? then db
        else Revised(db, c.eventId, c.after, actor, reason, Operator, Some(rid))
  }

  function Run(db: Db, ops: seq<Op>): Db {
    if ops == [] then db else Step(Run(db, ops[..|ops| - 1]), ops[|ops| - 1])
  }

  class RevisionStore {
    var base: map<int, int>
    var log: seq<Revision>

    function Contents(): Db
      reads this
    {
      Db(base, log)
    }

    constructor ()
      ensures Contents() == EMPTY
    {
      base, log := map[], [];
    }

    method ReviseConfidence(eventId: int, after: int, actor: string, reason: string, kind: Kind, approves: Option<nat>)
      returns (r: Result<Revision>)
      modifies this
      ensures var refusal := ReviseRefusal(old(Contents()), eventId, after, actor, reason, kind);
              if refusal.Some? then Contents() == old(Contents()) && r == Err(refusal.value)
              else && Contents() == Revised(old(Contents()), eventId, after, actor, reason, kind, approves)
                   && r == Ok(log[|log| - 1])
    {
      hide Head, Heads, Blank;
      if kind == OtherKind { return Err(ValidationError); }
      if !(1 <= after <= 5) { return Err(ValidationError); }
      if Blank(actor) || Blank(reason) { return Err(ValidationError); }
      if eventId !in base { return Err(NotFoundError); }
      var before := Effective(Contents(), eventId).value;
      var status := Proposed;
      if kind == Operator {
        log := Retire(log, eventId);
        status := Active;
      }
      log := log + [Revision(eventId, before, after, kind, status, actor, reason, approves)];
      return Ok(log[|log| - 1]);
    }

    method RejectCandidateRevision(revisionId: int, actor: string, reason: string) returns (r: Result<Revision>)
      modifies this
      ensures Contents() == Step(old(Contents()), Op.Reject(revisionId, actor, reason))
      ensures var refusal := CandidateRefusal(old(Contents()), revisionId, actor, reason);
              if refusal.Some? then r == Err(refusal.value)
              else 1 <= revisionId <= |log| && r == Ok(log[revisionId - 1])
    {
      hide Blank;
      if Blank(actor) || Blank(reason) { return Err(ValidationError); }
      if !(1 <= revisionId <= |log|) { return Err(NotFoundError); }
      if log[revisionId - 1].kind != Candidate { return Err(ValidationError); }
      if log[revisionId - 1].status != Proposed { return Err(ValidationError); }
      log := log[revisionId - 1 := log[revisionId - 1].(status := Rejected)];
      return Ok(log[revisionId - 1]);
    }

    /** Inserts an operator revision; the candidate row is not touched. */
    method ApproveConfidenceRevision(revisionId: int, actor: string, reason: string) returns (r: Result<Revision>)
      modifies this
      ensures Contents() == Step(old(Contents()), Op.Approve(revisionId, actor, reason))
      ensures var refusal := CandidateRefusal(old(Contents()), revisionId, actor, reason);
              refusal.Some? ==> r == Err(refusal.value)
      ensures r.Ok? ==> log != [] && r.value == log[|log| - 1] && r.value.approves == Some(revisionId)
      ensures r.Err? ==> Contents() == old(Contents())
    {
      hide Blank, Retire, Effective;
      if Blank(actor) || Blank(reason) { return Err(ValidationError); }
      if !(1 <= revisionId <= |log|) { return Err(NotFoundError); }
      if log[revisionId - 1].kind != Candidate { return Err(ValidationError); }
      if log[revisionId - 1].status != Proposed { return Err(ValidationError); }
      var c := log[revisionId - 1];
      r := ReviseConfidence(c.eventId, c.after, actor, reason, Operator, Some(revisionId));
    }
  }

  // ---------------------------------------------------------------------------
  // The chain of operator revisions
  // ---------------------------------------------------------------------------

  /** The operator revisions of one event, oldest first. */
  function OperatorLog(log: seq<Revision>, eventId: int): seq<Revision> {
    if log == [] then []
    else
      var before, last := OperatorLog(log[..|log| - 1], eventId), log[|log| - 1];
      if last.eventId == eventId && last.kind == Operator then before + [last] else before
  }

  /** Each revision starts from what the one before it, or the base, had set. */
  ghost predicate LinkedFrom(base: int, chain: seq<Revision>) {
    forall i | 0 <= i < |chain| :: StartsFrom(base, chain, i)
  }

  ghost predicate StartsFrom(base: int, chain: seq<Revision>, i: nat) {
    i < |chain| && chain[i].before == if i == 0 then base else chain[i - 1].after
  }

  /** Only the newest revision is active; the others are superseded. */
  ghost predicate OneActiveHead(chain: seq<Revision>) {
    forall i | 0 <= i < |chain| :: chain[i].status == if i == |chain| - 1 then Active else Superseded
  }

  ghost predicate RowOk(db: Db, r: Revision) {
    && r.eventId in db.base && 1 <= r.after <= 5
    && r.kind in {Operator, Candidate}
    && (r.kind == Candidate ==> r.status in {Proposed, Rejected})
  }

  ghost predicate EventChained(db: Db, eventId: int)
    requires eventId in db.base
  {
    var chain := OperatorLog(db.log, eventId);
    LinkedFrom(db.base[eventId], chain) && OneActiveHead(chain)
  }

  ghost predicate Chained(db: Db) {
    && (forall r | r in db.log :: RowOk(db, r))
    && (forall id | id in db.base :: EventChained(db, id))
  }

  lemma {:induction false} OperatorRows(log: seq<Revision>, eventId: int)
    ensures forall r | r in OperatorLog(log, eventId) :: r in log && r.eventId == eventId && r.kind == Operator
  {
    if log != [] { OperatorRows(log[..|log| - 1], eventId); }
  }

  function Superseding(chain: seq<Revision>): (r: seq<Revision>)
    ensures |r| == |chain|
  {
    seq(|chain|, i requires 0 <= i < |chain| =>
      if chain[i].status == Active then chain[i].(status := Superseded) else chain[i])
  }

  /** Retiring touches only the chain of its own event. */
  lemma {:induction false} RetireChain(log: seq<Revision>, eventId: int, other: int)
    ensures OperatorLog(Retire(log, eventId), other) ==
              if other == eventId then Superseding(OperatorLog(log, other)) else OperatorLog(log, other)
  {
    if log != [] {
      var before, last := log[..|log| - 1], log[|log| - 1];
      RetireChain(before, eventId, other);
      assert Retire(log, eventId)[..|log| - 1] == Retire(before, eventId);
      var chain := OperatorLog(before, other);
      if other == eventId && last.eventId == eventId && last.kind == Operator {
        assert Superseding(chain + [last]) ==
                 Superseding(chain) + [if last.status == Active then last.(status := Superseded) else last];
      }
    }
  }

  lemma OperatorLogSnoc(log: seq<Revision>, row: Revision, eventId: int)
    ensures OperatorLog(log + [row], eventId) ==
              if row.eventId == eventId && row.kind == Operator then OperatorLog(log, eventId) + [row]
              else OperatorLog(log, eventId)
  {
    assert (log + [row])[..|log|] == log;
  }

  lemma {:induction false} CandidateStatusKeepsChain(log: seq<Revision>, k: nat, status: Status, eventId: int)
    requires k < |log| && log[k].kind == Candidate
    ensures OperatorLog(log[k := log[k].(status := status)], eventId) == OperatorLog(log, eventId)
    decreases |log|
  {
    var after := log[k := log[k].(status := status)];
    if k < |log| - 1 {
      CandidateStatusKeepsChain(log[..|log| - 1], k, status, eventId);
      assert after[..|log| - 1] == log[..|log| - 1][k := log[k].(status := status)];
    } else {
      assert after[..|log| - 1] == log[..|log| - 1];
    }
  }

  /** The head of a chained log is its newest operator revision. */
  lemma {:induction false} HeadIsLast(log: seq<Revision>, eventId: int)
    requires OneActiveHead(OperatorLog(log, eventId))
    ensures var chain := OperatorLog(log, eventId);
            Head(log, eventId) == if chain == [] then None else Some(chain[|chain| - 1].after)
  {
    HeadSearch(log, eventId);
  }

  ghost predicate NoneActive(chain: seq<Revision>) {
    forall i | 0 <= i < |chain| :: chain[i].status != Active
  }

  lemma {:induction false} HeadSearch(log: seq<Revision>, eventId: int)
    ensures var chain := OperatorLog(log, eventId);
            && (NoneActive(chain) ==> Head(log, eventId) == None)
            && (OneActiveHead(chain) && chain != [] ==> Head(log, eventId) == Some(chain[|chain| - 1].after))
  {
    if log != [] {
      var before, last := log[..|log| - 1], log[|log| - 1];
      HeadSearch(before, eventId);
      var chain, rest := OperatorLog(log, eventId), OperatorLog(before, eventId);
      if last.eventId == eventId && last.kind == Operator {
        assert forall i | 0 <= i < |rest| :: chain[i] == rest[i];
        assert chain[|rest|] == last;
      }
    }
  }

  lemma AppendedChain(base: int, chain: seq<Revision>, row: Revision)
    requires LinkedFrom(base, chain) && OneActiveHead(chain) && row.status == Active
    requires row.before == if chain == [] then base else chain[|chain| - 1].after
    ensures LinkedFrom(base, Superseding(chain) + [row]) && OneActiveHead(Superseding(chain) + [row])
  {
    var longer := Superseding(chain) + [row];
    forall i | 0 <= i < |longer|
      ensures StartsFrom(base, longer, i)
    {
      if i < |chain| { assert StartsFrom(base, chain, i); }
    }
  }

  lemma RevisedKeepsChained(db: Db, eventId: int, after: int, actor: string, reason: string, kind: Kind,
                            approves: Option<nat>)
    requires Chained(db) && ReviseRefusal(db, eventId, after, actor, reason, kind).None?
    ensures Chained(Revised(db, eventId, after, actor, reason, kind, approves))
  {
    hide OperatorLog, LinkedFrom, OneActiveHead, Head, Blank;
    var next := Revised(db, eventId, after, actor, reason, kind, approves);
    var row := next.log[|db.log|];
    var kept := next.log[..|db.log|];
    assert next.log == kept + [row];
    forall id | id in next.base
      ensures EventChained(next, id)
    {
      assert EventChained(db, id);
      HeadIsLast(db.log, id);
      OperatorLogSnoc(kept, row, id);
      if kind == Operator {
        assert kept == Retire(db.log, eventId);
        RetireChain(db.log, eventId, id);
        if id == eventId { AppendedChain(db.base[id], OperatorLog(db.log, id), row); }
      } else {
        assert kept == db.log;
      }
    }
    forall r | r in next.log
      ensures RowOk(next, r)
    {
      var i :| 0 <= i < |next.log| && next.log[i] == r;
      if i < |db.log| { assert RowOk(db, db.log[i]); }
    }
  }

  lemma {:induction false} NoRowsNoChain(log: seq<Revision>, eventId: int)
    requires forall r | r in log :: r.eventId != eventId
    ensures OperatorLog(log, eventId) == []
  {
    if log != [] { NoRowsNoChain(log[..|log| - 1], eventId); }
  }

  lemma StepKeepsChained(db: Db, op: Op)
    requires Chained(db)
    ensures Chained(Step(db, op))
  {
    hide OperatorLog, Blank, Revised;
    var next := Step(db, op);
    match op
    case AddEvent(id, confidence) =>
      if id !in db.base {
        NoRowsNoChain(db.log, id);
      }
      forall k | k in next.base
        ensures EventChained(next, k)
      {
        if k in db.base { assert EventChained(db, k); }
      }
      assert forall r | r in next.log :: RowOk(db, r);
    case Revise(id, after, actor, reason, kind) =>
      if ReviseRefusal(db, id, after, actor, reason, kind).None? {
        RevisedKeepsChained(db, id, after, actor, reason, kind, None);
      }
    case Reject(rid, actor, reason) =>
      if CandidateRefusal(db, rid, actor, reason).None? {
        RejectKeepsChained(db, rid);
      }
    case Approve(rid, actor, reason) =>
      if CandidateRefusal(db, rid, actor, reason).None? {
        var c := db.log[rid - 1];
        if ReviseRefusal(db, c.eventId, c.after, actor, reason, Operator).None? {
          RevisedKeepsChained(db, c.eventId, c.after, actor, reason, Operator, Some(rid));
        }
      }
  }

  lemma RejectKeepsChained(db: Db, rid: int)
    requires Chained(db) && 1 <= rid <= |db.log| && db.log[rid - 1].kind == Candidate
    ensures Chained(db.(log := db.log[rid - 1 := db.log[rid - 1].(status := Rejected)]))
  {
    hide OperatorLog, LinkedFrom, OneActiveHead;
    var next := db.(log := db.log[rid - 1 := db.log[rid - 1].(status := Rejected)]);
    forall id | id in next.base
      ensures EventChained(next, id)
    {
      assert EventChained(db, id);
      CandidateStatusKeepsChain(db.log, rid - 1, Rejected, id);
    }
    forall r | r in next.log
      ensures RowOk(next, r)
    {
      var i :| 0 <= i < |next.log| && next.log[i] == r;
      assert RowOk(db, db.log[i]);
    }
  }

  /** Over every run, each operator revision starts where the one before it, or the base, ended, and
      only the newest is active. */
  lemma {:induction false} ReachableLogIsChained(ops: seq<Op>)
    ensures Chained(Run(EMPTY, ops))
  {
    hide Step;
    if ops != [] {
      ReachableLogIsChained(ops[..|ops| - 1]);
      StepKeepsChained(Run(EMPTY, ops[..|ops| - 1]), ops[|ops| - 1]);
    }
  }

  /** The effective confidence is what the newest operator revision set, or the base. */
  lemma EffectiveIsNewest(ops: seq<Op>, eventId: int)
    requires eventId in Run(EMPTY, ops).base
    ensures var db := Run(EMPTY, ops);
            var chain := OperatorLog(db.log, eventId);
            Effective(db, eventId) == Some(if chain == [] then db.base[eventId] else chain[|chain| - 1].after)
  {
    hide OperatorLog, Run, OneActiveHead;
    ReachableLogIsChained(ops);
    assert EventChained(Run(EMPTY, ops), eventId);
    HeadIsLast(Run(EMPTY, ops).log, eventId);
  }

  /** The event whose effective confidence an accepted operation sets, and to what. */
  function Sets(db: Db, op: Op): Option<(int, int)> {
    match op
    case AddEvent(id, confidence) =>
      if id in db.base || !(1 <= confidence <= 5) then None else Some((id, confidence))
    case Revise(id, after, actor, reason, kind) =>
      if ReviseRefusal(db, id, after, actor, reason, kind).Some? || kind != Operator then None else Some((id, after))
    case Reject(_, _, _) => None
    case Approve(rid, actor, reason) =>
      if CandidateRefusal(db, rid, actor, reason).Some? then None
      else Some((db.log[rid - 1].eventId, db.log[rid - 1].after))
  }

  lemma HeadSnoc(log: seq<Revision>, row: Revision, eventId: int)
    ensures Head(log + [row], eventId) == if Heads(row, eventId) then Some(row.after) else Head(log, eventId)
  {
    assert (log + [row])[..|log|] == log;
  }

  lemma {:induction false} RetireHead(log: seq<Revision>, eventId: int, other: int)
    ensures Head(Retire(log, eventId), other) == if other == eventId then None else Head(log, other)
  {
    if log != [] {
      RetireHead(log[..|log| - 1], eventId, other);
      assert Retire(log, eventId)[..|log| - 1] == Retire(log[..|log| - 1], eventId);
    }
  }

  lemma {:induction false} CandidateStatusKeepsHead(log: seq<Revision>, k: nat, status: Status, eventId: int)
    requires k < |log| && log[k].kind == Candidate
    ensures Head(log[k := log[k].(status := status)], eventId) == Head(log, eventId)
    decreases |log|
  {
    var after := log[k := log[k].(status := status)];
    if k < |log| - 1 {
      CandidateStatusKeepsHead(log[..|log| - 1], k, status, eventId);
      assert after[..|log| - 1] == log[..|log| - 1][k := log[k].(status := status)];
    } else {
      assert after[..|log| - 1] == log[..|log| - 1];
    }
  }

  lemma {:induction false} NoRowsNoHead(log: seq<Revision>, eventId: int)
    requires forall r | r in log :: r.eventId != eventId
    ensures Head(log, eventId) == None
  {
    if log != [] { NoRowsNoHead(log[..|log| - 1], eventId); }
  }

  lemma RevisedSetsEffective(db: Db, id: int, after: int, actor: string, reason: string, kind: Kind,
                             approves: Option<nat>, eventId: int)
    requires id in db.base
    ensures Effective(Revised(db, id, after, actor, reason, kind, approves), eventId) ==
              if kind == Operator && id == eventId then Some(after) else Effective(db, eventId)
  {
    hide Head;
    var next := Revised(db, id, after, actor, reason, kind, approves);
    var kept, row := next.log[..|db.log|], next.log[|db.log|];
    assert next.log == kept + [row];
    HeadSnoc(kept, row, eventId);
    if kind == Operator {
      assert kept == Retire(db.log, id);
      RetireHead(db.log, id, eventId);
    } else {
      assert kept == db.log;
    }
  }

  lemma StepSetsEffective(db: Db, op: Op, eventId: int)
    requires Chained(db)
    ensures Effective(Step(db, op), eventId) ==
              if Sets(db, op).Some? && Sets(db, op).value.0 == eventId then Some(Sets(db, op).value.1)
              else Effective(db, eventId)
  {
    hide Head, EventChained, Blank, Revised;
    match op
    case AddEvent(id, confidence) =>
      if id !in db.base {
        assert forall r | r in db.log :: RowOk(db, r);
        NoRowsNoHead(db.log, id);
      }
    case Revise(id, after, actor, reason, kind) =>
      if ReviseRefusal(db, id, after, actor, reason, kind).None? {
        RevisedSetsEffective(db, id, after, actor, reason, kind, None, eventId);
      }
    case Reject(rid, actor, reason) =>
      if CandidateRefusal(db, rid, actor, reason).None? {
        CandidateStatusKeepsHead(db.log, rid - 1, Rejected, eventId);
      }
    case Approve(rid, actor, reason) =>
      if CandidateRefusal(db, rid, actor, reason).None? {
        var c := db.log[rid - 1];
        assert RowOk(db, c);
        RevisedSetsEffective(db, c.eventId, c.after, actor, reason, Operator, Some(rid), eventId);
      }
  }

  /** Only an accepted operator revision or approval, of that very event, changes an effective
      confidence; candidates and rejections never do. */
  lemma EffectiveChangesOnlyBy(ops: seq<Op>, op: Op, eventId: int)
    ensures var db := Run(EMPTY, ops);
            Effective(Step(db, op), eventId) ==
              if Sets(db, op).Some? && Sets(db, op).value.0 == eventId then Some(Sets(db, op).value.1)
              else Effective(db, eventId)
  {
    hide *;
    ReachableLogIsChained(ops);
    StepSetsEffective(Run(EMPTY, ops), op, eventId);
  }

  /** Approving leaves the candidate as it was, so the same approval is accepted again, and again adds
      an operator revision, now from the candidate's confidence to itself. */
  lemma ApprovalIsRepeatable(ops: seq<Op>, rid: int, actor: string, reason: string)
    requires CandidateRefusal(Run(EMPTY, ops), rid, actor, reason).None?
    ensures var db := Run(EMPTY, ops);
            var once := Step(db, Op.Approve(rid, actor, reason));
            var twice := Step(once, Op.Approve(rid, actor, reason));
            && |once.log| == |db.log| + 1 && once.log[rid - 1] == db.log[rid - 1]
            && CandidateRefusal(once, rid, actor, reason).None?
            && |twice.log| == |once.log| + 1
            && twice.log[|once.log|].before == twice.log[|once.log|].after == db.log[rid - 1].after
  {
    hide Head, Blank, EventChained, Run, Effective;
    ReachableLogIsChained(ops);
    var db := Run(EMPTY, ops);
    var c := db.log[rid - 1];
    assert RowOk(db, c);
    var once := Step(db, Op.Approve(rid, actor, reason));
    assert once.log[rid - 1] == c;
    RevisedSetsEffective(db, c.eventId, c.after, actor, reason, Operator, Some(rid), c.eventId);
  }

  /** Such a candidate arises from one event and one revision. */
  lemma CandidateIsReachable(actor: string, reason: string)
    requires !Blank(actor) && !Blank(reason)
    ensures var ops := [AddEvent(1, 3), Revise(1, 5, actor, reason, Candidate)];
            CandidateRefusal(Run(EMPTY, ops), 1, actor, reason).None?
  {
    hide Blank, Head;
    var ops := [AddEvent(1, 3), Revise(1, 5, actor, reason, Candidate)];
    assert ops[..1] == [ops[0]] && ops[..1][..0] == [];
    assert Run(EMPTY, ops[..1]) == Step(EMPTY, ops[0]);
  }

  /** What no operation may change of a revision once written. */
  ghost predicate SameButStatus(a: Revision, b: Revision) {
    b == a.(status := b.status)
  }

  /** Superseded and rejected are final; an active revision can only be superseded, a proposed one only
      rejected. */
  ghost predicate MayBecome(a: Status, b: Status) {
    a == b || (a == Active && b == Superseded) || (a == Proposed && b == Rejected)
  }

  ghost predicate Extends(a: seq<Revision>, b: seq<Revision>) {
    |a| <= |b| && forall k | 0 <= k < |a| :: SameButStatus(a[k], b[k]) && MayBecome(a[k].status, b[k].status)
  }

  /** The log is append-only over every run: no revision is removed, reordered or rewritten. */
  lemma {:induction false} LogIsAppendOnly(db: Db, ops: seq<Op>)
    ensures Extends(db.log, Run(db, ops).log)
  {
    hide Effective, Blank;
    if ops != [] {
      LogIsAppendOnly(db, ops[..|ops| - 1]);
      StepExtends(Run(db, ops[..|ops| - 1]), ops[|ops| - 1]);
    }
  }

  lemma StepExtends(db: Db, op: Op)
    ensures Extends(db.log, Step(db, op).log)
  {
    hide Effective, Blank;
  }

  /** A rejected candidate stays rejected, whatever happens later: it can be neither approved nor rejected
      again, and its rejection changed nothing else. */
  lemma RejectionIsFinal(db: Db, rid: int, actor: string, reason: string, ops: seq<Op>, other: string, why: string)
    requires CandidateRefusal(db, rid, actor, reason).None?
    ensures var after := Step(db, Op.Reject(rid, actor, reason));
            && after.base == db.base && |after.log| == |db.log|
            && after.log[rid - 1] == db.log[rid - 1].(status := Rejected)
            && (forall i | 0 <= i < |db.log| && i != rid - 1 :: after.log[i] == db.log[i])
            && rid - 1 < |Run(after, ops).log| && Run(after, ops).log[rid - 1].status == Rejected
            && CandidateRefusal(Run(after, ops), rid, other, why) == Some(ValidationError)
  {
    hide Blank, Run, Step;
    var after := Step(db, Op.Reject(rid, actor, reason));
    RejectedRow(db, rid, actor, reason);
    LogIsAppendOnly(after, ops);
  }

  lemma RejectedRow(db: Db, rid: int, actor: string, reason: string)
    requires CandidateRefusal(db, rid, actor, reason).None?
    ensures var after := Step(db, Op.Reject(rid, actor, reason));
            && after.base == db.base && |after.log| == |db.log|
            && after.log[rid - 1] == db.log[rid - 1].(status := Rejected)
            && forall i | 0 <= i < |db.log| && i != rid - 1 :: after.log[i] == db.log[i]
  {
    hide Blank;
  }

  /** What a revision writes: a row from the effective confidence to the new one, active for an operator and
      proposed for a candidate; an operator's revision supersedes the active ones of its event. */
  lemma RevisionWrites(db: Db, eventId: int, after: int, actor: string, reason: string, kind: Kind,
                       approves: Option<nat>)
    requires eventId in db.base && kind in {Operator, Candidate}
    ensures var next, n := Revised(db, eventId, after, actor, reason, kind, approves), |db.log|;
            && next.base == db.base && |next.log| == n + 1
            && Effective(db, eventId) == Some(next.log[n].before)
            && next.log[n] == Revision(eventId, next.log[n].before, after, kind,
                                       if kind == Operator then Active else Proposed, actor, reason, approves)
            && forall i | 0 <= i < n ::
                 if kind == Operator && db.log[i].eventId == eventId && db.log[i].kind == Operator
                    && db.log[i].status == Active
                 then next.log[i] == db.log[i].(status := Superseded)
                 else next.log[i] == db.log[i]
  {
    hide Head;
  }

  /** Which revisions are accepted, and which candidates can be approved or rejected. */
  lemma AcceptedIff(db: Db, eventId: int, after: int, rid: int, actor: string, reason: string, kind: Kind)
    ensures ReviseRefusal(db, eventId, after, actor, reason, kind).None? <==>
              && (kind == Operator || kind == Candidate) && after in {1, 2, 3, 4, 5}
              && !Blank(actor) && !Blank(reason) && eventId in db.base
    ensures CandidateRefusal(db, rid, actor, reason).None? <==>
              && !Blank(actor) && !Blank(reason) && 0 < rid <= |db.log|
              && db.log[rid - 1].kind == Candidate && db.log[rid - 1].status == Proposed
  {
    hide Blank;
  }

  /** Approving a candidate gives its event the candidate's confidence and names the candidate. */
  lemma ApprovalTakesEffect(ops: seq<Op>, rid: int, actor: string, reason: string)
    requires CandidateRefusal(Run(EMPTY, ops), rid, actor, reason).None?
    ensures var db := Run(EMPTY, ops);
            var c, next := db.log[rid - 1], Step(db, Op.Approve(rid, actor, reason));
            && Effective(next, c.eventId) == Some(c.after)
            && |next.log| == |db.log| + 1 && next.log[|db.log|].approves == Some(rid)
            && next.log[|db.log|].kind == Operator && next.log[|db.log|].status == Active
  {
    hide Head, Blank, EventChained, Run, Effective;
    ReachableLogIsChained(ops);
    var db := Run(EMPTY, ops);
    var c := db.log[rid - 1];
    assert RowOk(db, c);
    RevisedSetsEffective(db, c.eventId, c.after, actor, reason, Operator, Some(rid), c.eventId);
  }
}
