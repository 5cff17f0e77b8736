/** The governed vocabulary: terms with supersession links, and one-step aliases. */
module Ontology {
  import opened Ordering
  import opened Outcomes
  import opened SuccessorGraph

  // `caption` is the column `label`, a reserved word here.
  datatype TermStatus = Active | Deprecated | Superseded | Forbidden

  /** `change` holds deprecated_at, deprecated_by and deprecation_reason. */
  datatype Term = Term(caption: string, status: TermStatus, supersededBy: Option<string>,
                       change: Option<(string, string, string)>)

  datatype Alias = Alias(term: string, createdBy: string, reason: string)

  /** (vocabulary_name, term) and (vocabulary_name, alias) are the unique keys of the two tables. */
  type Key = (string, string)

  datatype Db = Db(terms: map<Key, Term>, aliases: map<Key, Alias>)

  const EMPTY: Db := Db(map[], map[])

  const VOCABULARIES: set<string> := {"event_type", "relationship", "trigger_class", "compression_method"}

  datatype Op =
    | Register(vocabulary: string, term: string, caption: string, introducedBy: string)
    | Deprecate(vocabulary: string, term: string, deprecatedBy: string, reason: string, now: string)
    | Supersede(vocabulary: string, term: string, replacement: string, deprecatedBy: string, reason: string,
                now: string)
    | Forbid(vocabulary: string, term: string, forbiddenBy: string, reason: string, now: string)
    | AddAlias(vocabulary: string, term: string, alias: string, createdBy: string, reason: string)

  /** Whether the call is accepted; every refusal is a ValueError that writes nothing. */
  predicate Accepted(db: Db, op: Op) {
    match op
    case Register(v, t, caption, actor) =>
      && !Blank(v) && v in VOCABULARIES && !Blank(t) && !Blank(caption) && !Blank(actor)
      && (v, t) !in db.aliases && (v, t) !in db.terms
    case Deprecate(v, t, actor, reason, _) =>
      && !Blank(actor) && !Blank(reason)
      && (v, t) in db.terms && db.terms[(v, t)].status == Active
    case Supersede(v, t, r, actor, reason, _) =>
      && !Blank(actor) && !Blank(reason) && !Blank(r) && r != t
      && (v, t) in db.terms && db.terms[(v, t)].status == Active
      && (v, r) in db.terms && db.terms[(v, r)].status == Active
    case Forbid(v, t, actor, reason, _) =>
      !Blank(actor) && !Blank(reason) && (v, t) in db.terms
    case AddAlias(v, t, a, actor, reason) =>
      && !Blank(actor) && !Blank(reason) && !Blank(a) && a != t
      && (v, t) in db.terms && db.terms[(v, t)].status != Forbidden
      && (v, a) !in db.terms && (v, a) !in db.aliases
  }

  function Step(db: Db, op: Op): Db {
    if !Accepted(db, op) then db
    else
      var k := (op.vocabulary, op.term);
      match op
      case Register(_, _, caption, _) =>
        db.(terms := db.terms[k := Term(caption, Active, None, None)])
      case Deprecate(_, _, actor, reason, now) =>
        db.(terms := db.terms[k := db.terms[k].(status := Deprecated, change := Some((now, actor, reason)))])
      case Supersede(_, _, r, actor, reason, now) =>
        db.(terms := db.terms[k := db.terms[k].(status := Superseded, supersededBy := Some(r),
                                                change := Some((now, actor, reason)))])
      case Forbid(_, _, actor, reason, now) =>
        db.(terms := db.terms[k := db.terms[k].(status := Forbidden, change := Some((now, actor, reason)))])
      case AddAlias(v, t, a, actor, reason) =>
        db.(aliases := db.aliases[(v, a) := Alias(t, actor, reason)])
  }

  function Run(db: Db, ops: seq<Op>): Db {
    if ops == [] then db else Step(Run(db, ops[..|ops| - 1]), ops[|ops| - 1])
  }

  function Successors(db: Db): map<Key, Key> {
    map k | k in db.terms && db.terms[k].supersededBy.Some? :: (k.0, db.terms[k].supersededBy.value)
  }

  function ResolveAlias(db: Db, vocabulary: string, alias: string): Option<string> {
    if (vocabulary, alias) in db.aliases then Some(db.aliases[(vocabulary, alias)].term) else None
  }

  class Registry {
    var terms: map<Key, Term>
    var aliases: map<Key, Alias>

    function Contents(): Db
      reads this
    {
      Db(terms, aliases)
    }

    constructor ()
      ensures Contents() == EMPTY
    {
      terms, aliases := map[], map[];
    }

    method RegisterTerm(vocabulary: string, term: string, caption: string, introducedBy: string)
      returns (r: Result<Term>)
      modifies this
      ensures var op := Op.Register(vocabulary, term, caption, introducedBy);
              && Contents() == Step(old(Contents()), op)
              && r == if Accepted(old(Contents()), op) then Ok(terms[(vocabulary, term)]) else Err(ValueError)
    {
      if Blank(vocabulary) || vocabulary !in VOCABULARIES { return Err(ValueError); }
      if Blank(term) || Blank(caption) || Blank(introducedBy) { return Err(ValueError); }
      if (vocabulary, term) in aliases { return Err(ValueError); }
      if (vocabulary, term) in terms { return Err(ValueError); }
      terms := terms[(vocabulary, term) := Term(caption, Active, None, None)];
      return Ok(terms[(vocabulary, term)]);
    }

    method DeprecateTerm(vocabulary: string, term: string, deprecatedBy: string, reason: string, now: string)
      returns (r: Result<Term>)
      modifies this
      ensures var op := Op.Deprecate(vocabulary, term, deprecatedBy, reason, now);
              && Contents() == Step(old(Contents()), op)
              && r == if Accepted(old(Contents()), op) then Ok(terms[(vocabulary, term)]) else Err(ValueError)
    {
      if Blank(deprecatedBy) || Blank(reason) { return Err(ValueError); }
      var k := (vocabulary, term);
      if k !in terms || terms[k].status != Active { return Err(ValueError); }
      terms := terms[k := terms[k].(status := Deprecated, change := Some((now, deprecatedBy, reason)))];
      return Ok(terms[k]);
    }

    method SupersedeTerm(vocabulary: string, term: string, replacement: string,
                         deprecatedBy: string, reason: string, now: string)
      returns (r: Result<Term>)
      modifies this
      ensures var op := Op.Supersede(vocabulary, term, replacement, deprecatedBy, reason, now);
              && Contents() == Step(old(Contents()), op)
              && r == if Accepted(old(Contents()), op) then Ok(terms[(vocabulary, term)]) else Err(ValueError)
    {
      if Blank(deprecatedBy) || Blank(reason) || Blank(replacement) { return Err(ValueError); }
      if replacement == term { return Err(ValueError); }
      var k := (vocabulary, term);
      if k !in terms || terms[k].status != Active { return Err(ValueError); }
      if (vocabulary, replacement) !in terms { return Err(ValueError); }
      if terms[(vocabulary, replacement)].status != Active { return Err(ValueError); }
      terms := terms[k := terms[k].(status := Superseded, supersededBy := Some(replacement),
                                    change := Some((now, deprecatedBy, reason)))];
      return Ok(terms[k]);
    }

    method ForbidTerm(vocabulary: string, term: string, forbiddenBy: string, reason: string, now: string)
      returns (r: Result<Term>)
      modifies this
      ensures var op := Op.Forbid(vocabulary, term, forbiddenBy, reason, now);
              && Contents() == Step(old(Contents()), op)
              && r == if Accepted(old(Contents()), op) then Ok(terms[(vocabulary, term)]) else Err(ValueError)
    {
      if Blank(forbiddenBy) || Blank(reason) { return Err(ValueError); }
      var k := (vocabulary, term);
      if k !in terms { return Err(ValueError); }
      terms := terms[k := terms[k].(status := Forbidden, change := Some((now, forbiddenBy, reason)))];
      return Ok(terms[k]);
    }

    method AddAlias(vocabulary: string, term: string, alias: string, createdBy: string, reason: string)
      returns (r: Result<Alias>)
      modifies this
      ensures var op := Op.AddAlias(vocabulary, term, alias, createdBy, reason);
              && Contents() == Step(old(Contents()), op)
              && r == if Accepted(old(Contents()), op) then Ok(aliases[(vocabulary, alias)]) else Err(ValueError)
    {
      if Blank(createdBy) || Blank(reason) || Blank(alias) { return Err(ValueError); }
      if alias == term { return Err(ValueError); }
      if (vocabulary, term) !in terms { return Err(ValueError); }
      if terms[(vocabulary, term)].status == Forbidden { return Err(ValueError); }
      if (vocabulary, alias) in terms { return Err(ValueError); }
      if (vocabulary, alias) in aliases { return Err(ValueError); }
      aliases := aliases[(vocabulary, alias) := Alias(term, createdBy, reason)];
      return Ok(aliases[(vocabulary, alias)]);
    }
  }

  /** The audit join of aliases with the terms they shadow, ORDER BY vocabulary_name ASC, alias ASC. */
  method DetectAliasConflicts(db: Db) returns (conflicts: seq<Key>)
    ensures IsListing(conflicts, db.aliases.Keys * db.terms.Keys, TextPairLe)
  {
    var shadowed := set k | k in db.aliases && k in db.terms;
    TextPairLeTotal(shadowed);
    conflicts := SortedBy(shadowed, TextPairLe);
    assert shadowed == db.aliases.Keys * db.terms.Keys;
  }

  // ---------------------------------------------------------------------------
  // Every reachable registry
  // ---------------------------------------------------------------------------

  ghost predicate TermGoverned(db: Db, k: Key)
    requires k in db.terms
  {
    var t := db.terms[k];
    && k.0 in VOCABULARIES
    && (t.supersededBy.Some? ==> t.status in {Superseded, Forbidden})
    && (t.status == Superseded ==> t.supersededBy.Some?)
    && (t.supersededBy.Some? ==> (k.0, t.supersededBy.value) in db.terms)
  }

  ghost predicate LinksGoverned(db: Db) {
    && (forall k | k in db.terms :: TermGoverned(db, k))
    && Acyclic(Successors(db))
  }

  ghost predicate AliasesGoverned(db: Db) {
    forall k | k in db.aliases ::
      k !in db.terms && (k.0, db.aliases[k].term) in db.terms
  }

  lemma StepSuccessors(db: Db, op: Op)
    ensures Successors(Step(db, op)) ==
            if Accepted(db, op) && op.Supersede?
            then Successors(db)[(op.vocabulary, op.term) := (op.vocabulary, op.replacement)]
            else Successors(db)
  {
  }

  lemma StepTerms(db: Db, op: Op)
    requires forall k | k in db.terms :: TermGoverned(db, k)
    ensures forall k | k in Step(db, op).terms :: TermGoverned(Step(db, op), k)
  {
    var after := Step(db, op);
    forall k | k in after.terms
      ensures TermGoverned(after, k)
    {
      assert db.terms.Keys <= after.terms.Keys;
      if k in db.terms { assert TermGoverned(db, k); }
    }
  }

  lemma StepLinks(db: Db, op: Op)
    requires LinksGoverned(db)
    ensures LinksGoverned(Step(db, op))
  {
    StepTerms(db, op);
    StepSuccessors(db, op);
    if Accepted(db, op) && op.Supersede? {
      var a, b := (op.vocabulary, op.term), (op.vocabulary, op.replacement);
      assert TermGoverned(db, a) && TermGoverned(db, b);
      LinkAcyclicIff(Successors(db), a, b);
      SinkReachesOnlyItself(Successors(db), b, a);
    }
  }

  lemma {:induction false} ReachableRegistryIsGoverned(ops: seq<Op>)
    ensures LinksGoverned(Run(EMPTY, ops)) && AliasesGoverned(Run(EMPTY, ops))
  {
    if ops == [] {
      assert Successors(EMPTY) == map[];
      forall c: seq<Key>
        ensures !IsCycle(map[], c)
      {
      }
    } else {
      ReachableRegistryIsGoverned(ops[..|ops| - 1]);
      StepLinks(Run(EMPTY, ops[..|ops| - 1]), ops[|ops| - 1]);
    }
  }

  /** Following `superseded_by` from any registered term comes to an end, never leaves the
      registry, and never changes vocabulary. */
  lemma SupersessionEndsInVocabulary(ops: seq<Op>, k: Key)
    requires k in Run(EMPTY, ops).terms
    ensures var db := Run(EMPTY, ops);
            exists p: seq<Key> ::
              && WalkFrom(Successors(db), k, p) && Distinct(p) && Last(p) !in Successors(db)
              && forall i | 0 <= i < |p| :: p[i] in db.terms && p[i].0 == k.0
  {
    var db := Run(EMPTY, ops);
    ReachableRegistryIsGoverned(ops);
    var m := Successors(db);
    var p := MaximalWalk(m, k);
    if Last(p) in m {
      var i :| 0 <= i < |p| && p[i] == m[Last(p)];
      ReentryIsCycle(m, p, i);
      assert false;
    }
    forall i | 0 <= i < |p|
      ensures p[i] in db.terms && p[i].0 == k.0
    {
      WalkKeepsVocabulary(db, p, i);
    }
  }

  lemma {:induction false} WalkKeepsVocabulary(db: Db, p: seq<Key>, i: nat)
    requires LinksGoverned(db) && p != [] && IsWalk(Successors(db), p) && p[0] in db.terms && i < |p|
    ensures p[i] in db.terms && p[i].0 == p[0].0
  {
    if i > 0 {
      WalkKeepsVocabulary(db, p, i - 1);
      assert TermGoverned(db, p[i - 1]);
      assert p[i - 1] in Successors(db) && Successors(db)[p[i - 1]] == p[i];
    }
  }

  /** Exactly the aliases resolve, and in one step: the answer is a registered term and never itself an
      alias. */
  lemma AliasResolvesInOneStep(ops: seq<Op>, vocabulary: string, alias: string)
    ensures var db := Run(EMPTY, ops);
            var r := ResolveAlias(db, vocabulary, alias);
            && (r.Some? <==> (vocabulary, alias) in db.aliases)
            && (r.Some? ==>
                  && (vocabulary, r.value) in db.terms && ResolveAlias(db, vocabulary, r.value).None?
                  && (vocabulary, alias) !in db.terms)
  {
    ReachableRegistryIsGoverned(ops);
  }

  ghost predicate IsVocabulary(text: string) {
    text == "event_type" || text == "relationship" || text == "trigger_class" || text == "compression_method"
  }

  lemma VocabularyIff(text: string)
    ensures text in VOCABULARIES <==> IsVocabulary(text)
  {
  }

  /** Which calls are accepted; no other condition refuses one. */
  lemma AcceptedIff(db: Db, v: string, t: string, other: string, actor: string, text: string, now: string)
    ensures Accepted(db, Op.Register(v, t, text, actor)) <==>
              && IsVocabulary(v) && !Blank(v) && !Blank(t) && !Blank(text) && !Blank(actor)
              && !((v, t) in db.terms) && !((v, t) in db.aliases)
    ensures Accepted(db, Op.Deprecate(v, t, actor, text, now)) <==>
              IsActive(db, v, t) && !Blank(actor) && !Blank(text)
    ensures Accepted(db, Op.Supersede(v, t, other, actor, text, now)) <==>
              && IsActive(db, v, t) && IsActive(db, v, other) && t != other
              && !Blank(other) && !Blank(actor) && !Blank(text)
    ensures Accepted(db, Op.Forbid(v, t, actor, text, now)) <==>
              (v, t) in db.terms && !Blank(actor) && !Blank(text)
    ensures Accepted(db, Op.AddAlias(v, t, other, actor, text)) <==>
              && (IsActive(db, v, t) || IsRetired(db, v, t)) && t != other
              && !((v, other) in db.terms) && !((v, other) in db.aliases)
              && !Blank(other) && !Blank(actor) && !Blank(text)
  {
    hide Blank, VOCABULARIES, IsVocabulary;
    VocabularyIff(v);
  }

  ghost predicate IsActive(db: Db, v: string, t: string) {
    (v, t) in db.terms && db.terms[(v, t)].status == Active
  }

  /** Deprecated or superseded, not forbidden. */
  ghost predicate IsRetired(db: Db, v: string, t: string) {
    (v, t) in db.terms && (db.terms[(v, t)].status == Deprecated || db.terms[(v, t)].status == Superseded)
  }

  /** Every stored term and alias has a name, and every change on record names who made it and why. */
  ghost predicate Recorded(db: Db) {
    && (forall k | k in db.terms ::
          && !Blank(k.0) && !Blank(k.1) && !Blank(db.terms[k].caption)
          && (db.terms[k].change.Some? ==> !Blank(db.terms[k].change.value.1) && !Blank(db.terms[k].change.value.2)))
    && (forall k | k in db.aliases ::
          && !Blank(k.1) && k.1 != db.aliases[k].term
          && !Blank(db.aliases[k].createdBy) && !Blank(db.aliases[k].reason))
  }

  lemma {:induction false} ReachableIsRecorded(ops: seq<Op>)
    ensures Recorded(Run(EMPTY, ops))
  {
    hide Step, Blank;
    if ops != [] {
      ReachableIsRecorded(ops[..|ops| - 1]);
      StepIsRecorded(Run(EMPTY, ops[..|ops| - 1]), ops[|ops| - 1]);
    }
  }

  lemma StepIsRecorded(db: Db, op: Op)
    requires Recorded(db)
    ensures Recorded(Step(db, op))
  {
    hide Blank, VOCABULARIES;
  }

  /** What an accepted call leaves: the term's status, link and change record, and every other row as it
      was.  A refused call leaves everything. */
  lemma AcceptedCallLeaves(db: Db, op: Op)
    ensures var after := Step(db, op);
            if !Accepted(db, op) then after == db
            else if op.AddAlias? then
              && after.terms == db.terms
              && after.aliases.Keys == db.aliases.Keys + {(op.vocabulary, op.alias)}
              && after.aliases[(op.vocabulary, op.alias)] == Alias(op.term, op.createdBy, op.reason)
              && forall k | k in db.aliases :: after.aliases[k] == db.aliases[k]
            else
              var k := (op.vocabulary, op.term);
              && after.aliases == db.aliases && after.terms.Keys == db.terms.Keys + {k}
              && (forall l | l in db.terms && l != k :: after.terms[l] == db.terms[l])
              && match op
                 case Register(_, _, caption, _) =>
                   after.terms[k] == Term(caption, Active, None, None)
                 case Deprecate(_, _, actor, reason, now) =>
                   after.terms[k] == Term(db.terms[k].caption, Deprecated, db.terms[k].supersededBy,
                                          Some((now, actor, reason)))
                 case Supersede(_, _, replacement, actor, reason, now) =>
                   after.terms[k] == Term(db.terms[k].caption, Superseded, Some(replacement),
                                          Some((now, actor, reason)))
                 case Forbid(_, _, actor, reason, now) =>
                   after.terms[k] == Term(db.terms[k].caption, Forbidden, db.terms[k].supersededBy,
                                          Some((now, actor, reason)))
                 case AddAlias(_, _, _, _, _) => false
  {
  }

  /** An accepted alias resolves to its term from then on, whatever happens to the term. */
  lemma AcceptedAliasResolves(db: Db, op: Op, ops: seq<Op>)
    requires op.AddAlias? && Accepted(db, op)
    ensures ResolveAlias(Run(Step(db, op), ops), op.vocabulary, op.alias) == Some(op.term)
  {
    AliasesStay(Step(db, op), ops, (op.vocabulary, op.alias));
  }

  lemma {:induction false} AliasesStay(db: Db, ops: seq<Op>, k: Key)
    requires k in db.aliases
    ensures k in Run(db, ops).aliases && Run(db, ops).aliases[k] == db.aliases[k]
  {
    hide Step;
    if ops != [] {
      var before := Run(db, ops[..|ops| - 1]);
      AliasesStay(db, ops[..|ops| - 1], k);
      StepKeepsAlias(before, ops[|ops| - 1], k);
    }
  }

  lemma StepKeepsAlias(db: Db, op: Op, k: Key)
    requires k in db.aliases
    ensures k in Step(db, op).aliases && Step(db, op).aliases[k] == db.aliases[k]
  {
  }

  /** The conflict audit reports nothing on any reachable registry. */
  lemma ReachableRegistryHasNoConflicts(ops: seq<Op>, conflicts: seq<Key>)
    requires IsListing(conflicts, Run(EMPTY, ops).aliases.Keys * Run(EMPTY, ops).terms.Keys, TextPairLe)
    ensures conflicts == []
  {
    ReachableRegistryIsGoverned(ops);
    assert Run(EMPTY, ops).aliases.Keys * Run(EMPTY, ops).terms.Keys == {};
  }

  /** Forbidding a term does not touch its aliases: they go on resolving to it, although
      no further alias of it is accepted. */
  lemma ForbiddenTargetStillResolves(db: Db, op: Op, alias: string, createdBy: string, reason: string)
    requires op.Forbid? && Accepted(db, op)
    ensures ResolveAlias(Step(db, op), op.vocabulary, alias) == ResolveAlias(db, op.vocabulary, alias)
    ensures !Accepted(Step(db, op), Op.AddAlias(op.vocabulary, op.term, alias, createdBy, reason))
  {
  }

  /** A term never becomes active again, and its link, once set, is permanent. */
  lemma {:induction false} RetiredTermsStayRetired(db: Db, ops: seq<Op>, k: Key)
    requires k in db.terms && db.terms[k].status != Active
    ensures k in Run(db, ops).terms && Run(db, ops).terms[k].status != Active
    ensures Run(db, ops).terms[k].supersededBy == db.terms[k].supersededBy
  {
    if ops != [] { RetiredTermsStayRetired(db, ops[..|ops| - 1], k); }
  }
}
