/** What exporting and importing amount to together. */
module Continuity {
  import opened Bundles
  import opened Events
  import opened Exporter
  import opened Importer
  import opened Ordering
  import opened Outcomes
  import opened Tables

  /** The planning finds no collision and every planned insert is accepted. */
  predicate Succeeds(db: Db, s: Sections) {
    Collisions(Planned(db, s)) == [] && Writable(db, Planned(db, s))
  }

  function Imported(db: Db, s: Sections): Db {
    Written(db, Planned(db, s))
  }

  // ---------------------------------------------------------------------------
  // A collision-free import merges each section into its table
  // ---------------------------------------------------------------------------

  lemma NoCollisions(p: Plans)
    ensures Collisions(p) == [] <==>
              && p.events.collisions == [] && p.docs.collisions == [] && p.runs.collisions == []
              && p.semRuns.collisions == [] && p.candidates.collisions == []
  {
  }

  lemma PlanWithoutCollisions<K, V(!new)>(table: map<K, V>, rows: seq<V>, schema: Schema<K, V>, verdict: V -> Verdict)
    requires PlanOf(rows, verdict).collisions == []
    requires forall r | r in rows && verdict(r) != Collide :: verdict(r) == Insert <==> schema.key(r) !in table
    ensures PlanOf(rows, verdict).inserts == Absent(table, rows, schema)
    ensures forall r | r in rows :: verdict(r) != Collide
  {
    assert forall r | r in rows && verdict(r) == Collide :: r in PlanOf(rows, verdict).collisions;
    FilterSame(rows, r => verdict(r) == Insert, r => schema.key(r) !in table);
  }

  lemma PlansWithoutCollisions(db: Db, s: Sections)
    requires Collisions(Planned(db, s)) == []
    ensures var p := Planned(db, s);
            && p.events.inserts == Absent(db.events, s.events, EVENTS)
            && p.docs.inserts == Absent(db.docs, s.docs, DOCS)
            && p.runs.inserts == Absent(db.runs, s.runs, RUNS)
            && p.semRuns.inserts == Absent(db.semRuns, s.semRuns, SEM_RUNS)
            && p.candidates.inserts == Absent(db.candidates, s.candidates, CANDIDATES)
    ensures forall e | e in s.events && e.id in db.events :: SameIdentity(db.events[e.id], e)
  {
    hide Collisions, PlanOf, Absent, EventOk, DocOk, RunOk, SemRunOk, CandidateOk, SameIdentity, VersionTaken;
    var p := Planned(db, s);
    NoCollisions(p);
    PlanWithoutCollisions(db.events, s.events, EVENTS, e => EventVerdict(db, e));
    PlanWithoutCollisions(db.docs, s.docs, DOCS, d => DocVerdict(db, d));
    PlanWithoutCollisions(db.runs, s.runs, RUNS, r => RunVerdict(db, r));
    PlanWithoutCollisions(db.semRuns, s.semRuns, SEM_RUNS, r => SemRunVerdict(db, r));
    var incoming := Ids(p.events.inserts);
    PlanWithoutCollisions(db.candidates, s.candidates, CANDIDATES, c => CandidateVerdict(db, incoming, c));
  }

  ghost predicate AllMergeable(db: Db, s: Sections) {
    && Mergeable(db.events, s.events, EVENTS) && Mergeable(db.docs, s.docs, DOCS)
    && Mergeable(db.runs, s.runs, RUNS) && Mergeable(db.semRuns, s.semRuns, SEM_RUNS)
    && Mergeable(db.candidates, s.candidates, CANDIDATES)
  }

  lemma ImportIsMerge(db: Db, s: Sections)
    requires Succeeds(db, s)
    ensures Imported(db, s) == Db(Merge(db.events, s.events, EVENTS),
                                  Bumped(db.sequence, Absent(db.events, s.events, EVENTS)),
                                  Merge(db.docs, s.docs, DOCS), Merge(db.runs, s.runs, RUNS),
                                  Merge(db.semRuns, s.semRuns, SEM_RUNS),
                                  Merge(db.candidates, s.candidates, CANDIDATES))
    ensures AllMergeable(db, s)
    ensures forall e | e in s.events && e.id in db.events :: SameIdentity(db.events[e.id], e)
  {
    hide Planned, Collisions, Absent, Inserted, Insertable, EVENTS, DOCS, RUNS, SEM_RUNS, CANDIDATES, SameIdentity;
    PlansWithoutCollisions(db, s);
    var p := Planned(db, s);
    InsertableIff(db.events, p.events.inserts, EVENTS);
    InsertableIff(db.docs, p.docs.inserts, DOCS);
    InsertableIff(db.runs, p.runs.inserts, RUNS);
    InsertableIff(db.semRuns, p.semRuns.inserts, SEM_RUNS);
    InsertableIff(db.candidates, p.candidates.inserts, CANDIDATES);
  }

  // ---------------------------------------------------------------------------
  // Constraints and fresh ids
  // ---------------------------------------------------------------------------

  lemma {:induction false} BumpedIsMaximum(sequence: int, rows: seq<Event>)
    ensures var m := Bumped(sequence, rows);
            && sequence <= m && (forall e | e in rows :: e.id <= m)
            && (m == sequence || exists e :: e in rows && e.id == m)
  {
    if rows != [] {
      var before, last := rows[..|rows| - 1], rows[|rows| - 1];
      assert rows == before + [last];
      BumpedIsMaximum(sequence, before);
      assert last in rows;
    }
  }

  /** A written import keeps every constraint, and leaves the id sequence at or above every event id,
      so that ids generated later are new. */
  lemma ImportKeepsSound(db: Db, s: Sections)
    requires Sound(db) && Writable(db, Planned(db, s))
    ensures Sound(Imported(db, s))
  {
    hide Planned, WellKept, Inserted, Insertable, EventOk, DocOk, RunOk, SemRunOk, CandidateOk;
    var p := Planned(db, s);
    SoundTables(db);
    InsertKeepsTable(db.events, p.events.inserts, EVENTS);
    InsertKeepsTable(db.docs, p.docs.inserts, DOCS);
    InsertKeepsTable(db.runs, p.runs.inserts, RUNS);
    InsertKeepsTable(db.semRuns, p.semRuns.inserts, SEM_RUNS);
    InsertKeepsTable(db.candidates, p.candidates.inserts, CANDIDATES);
    SequenceCovers(db, p.events.inserts);
  }

  lemma SequenceCovers(db: Db, rows: seq<Event>)
    requires (forall id | id in db.events :: id <= db.sequence) && Insertable(db.events, rows, EVENTS)
    ensures forall id | id in Inserted(db.events, rows, EVENTS) :: id <= Bumped(db.sequence, rows)
  {
    hide Inserted, Insertable, Bumped, EventOk;
    InsertableIff(db.events, rows, EVENTS);
    InsertedContents(db.events, rows, EVENTS);
    BumpedIsMaximum(db.sequence, rows);
  }

  // ---------------------------------------------------------------------------
  // Idempotence
  // ---------------------------------------------------------------------------

  /** The second planning of the same records. */
  function AllSkipped(s: Sections): Plans {
    Plans(Plan([], s.events, []), Plan([], s.docs, []), Plan([], s.runs, []), Plan([], s.semRuns, []),
          Plan([], s.candidates, []))
  }

  lemma PlanAllSkips<T(!new)>(rows: seq<T>, verdict: T -> Verdict)
    requires forall r | r in rows :: verdict(r) == Skip
    ensures PlanOf(rows, verdict) == Plan([], rows, [])
  {
    FilterNone(rows, r => verdict(r) == Insert);
    FilterAll(rows, r => verdict(r) == Skip);
    FilterNone(rows, r => verdict(r) == Collide);
  }

  lemma EventsSkipAgain(db: Db, s: Sections, again: Db)
    requires Mergeable(db.events, s.events, EVENTS) && again.events == Merge(db.events, s.events, EVENTS)
    requires forall e | e in s.events && e.id in db.events :: SameIdentity(db.events[e.id], e)
    ensures forall e | e in s.events :: EventVerdict(again, e) == Skip
  {
    hide Merge, Mergeable, EventOk;
    MergeContents(db.events, s.events, EVENTS);
    forall e | e in s.events
      ensures EventVerdict(again, e) == Skip
    {
      assert EVENTS.key(e) == e.id && EVENTS.key(e) in KeysOf(s.events, EVENTS);
    }
  }

  lemma KeysPresentAfterMerge<K(!new), V(!new)>(table: map<K, V>, rows: seq<V>, schema: Schema<K, V>)
    requires Mergeable(table, rows, schema)
    ensures forall r | r in rows :: schema.key(r) in Merge(table, rows, schema)
  {
    hide Merge, Mergeable;
    MergeContents(table, rows, schema);
    forall r | r in rows
      ensures schema.key(r) in Merge(table, rows, schema)
    {
      assert schema.key(r) in KeysOf(rows, schema);
    }
  }

  lemma SecondPlanSkipsAll(db: Db, s: Sections)
    requires Succeeds(db, s)
    ensures Planned(Imported(db, s), s) == AllSkipped(s)
  {
    hide PlanOf, Merge, Mergeable, Succeeds, Imported, SameIdentity, VersionTaken, EventOk, DocOk, RunOk, SemRunOk,
         CandidateOk, Ids, EventVerdict;
    ImportIsMerge(db, s);
    var again := Imported(db, s);
    EventsSkipAgain(db, s, again);
    KeysPresentAfterMerge(db.docs, s.docs, DOCS);
    KeysPresentAfterMerge(db.runs, s.runs, RUNS);
    KeysPresentAfterMerge(db.semRuns, s.semRuns, SEM_RUNS);
    KeysPresentAfterMerge(db.candidates, s.candidates, CANDIDATES);
    PlanAllSkips(s.events, e => EventVerdict(again, e));
    PlanAllSkips(s.docs, d => DocVerdict(again, d));
    PlanAllSkips(s.runs, r => RunVerdict(again, r));
    PlanAllSkips(s.semRuns, r => SemRunVerdict(again, r));
    var incoming := Ids([]);
    PlanAllSkips(s.candidates, c => CandidateVerdict(again, incoming, c));
  }

  /** Importing the same records again succeeds, inserts nothing, and changes nothing. */
  lemma SecondImportInsertsNothing(db: Db, s: Sections, dryRun: bool)
    requires Succeeds(db, s)
    ensures var again := Imported(db, s);
            && Succeeds(again, s) && Imported(again, s) == again
            && Report(Planned(again, s), dryRun).imported == Tally(0, 0, 0, 0, 0)
  {
    hide Planned, EVENTS, DOCS, RUNS, SEM_RUNS, CANDIDATES;
    SecondPlanSkipsAll(db, s);
  }

  // ---------------------------------------------------------------------------
  // Order of imports
  // ---------------------------------------------------------------------------

  ghost predicate SucceedBothWays(db: Db, a: Sections, b: Sections) {
    && Succeeds(db, a) && Succeeds(Imported(db, a), b)
    && Succeeds(db, b) && Succeeds(Imported(db, b), a)
  }

  ghost predicate SameKeys(x: Db, y: Db) {
    && x.events.Keys == y.events.Keys && x.docs.Keys == y.docs.Keys && x.runs.Keys == y.runs.Keys
    && x.semRuns.Keys == y.semRuns.Keys && x.candidates.Keys == y.candidates.Keys
  }

  ghost predicate SameIdentities(x: Db, y: Db) {
    forall id | id in x.events && id in y.events :: SameIdentity(x.events[id], y.events[id])
  }

  ghost predicate AgreeEverywhere(a: Sections, b: Sections) {
    && AgreeOnShared(a.events, b.events, EVENTS) && AgreeOnShared(a.docs, b.docs, DOCS)
    && AgreeOnShared(a.runs, b.runs, RUNS) && AgreeOnShared(a.semRuns, b.semRuns, SEM_RUNS)
    && AgreeOnShared(a.candidates, b.candidates, CANDIDATES)
  }

  lemma SequenceAfterImport(db: Db, s: Sections)
    requires Succeeds(db, s)
    ensures var after := Imported(db, s);
            && db.events.Keys <= after.events.Keys && db.sequence <= after.sequence
            && (forall id | id in after.events && id !in db.events :: id <= after.sequence)
            && (after.sequence == db.sequence || (after.sequence in after.events && after.sequence !in db.events))
  {
    hide Planned, Collisions, Inserted, Insertable, Succeeds, Imported, Bumped, EventOk, DOCS, RUNS, SEM_RUNS,
         CANDIDATES;
    ImportIsMerge(db, s);
    var added := Absent(db.events, s.events, EVENTS);
    InsertedContents(db.events, added, EVENTS);
    BumpedIsMaximum(db.sequence, added);
    forall id | id in Imported(db, s).events && id !in db.events
      ensures id <= Imported(db, s).sequence
    {
      RowAfterInsert(db.events, added, EVENTS, id);
    }
    forall e | e in added
      ensures e.id in Imported(db, s).events && e.id !in db.events
    {
      assert EVENTS.key(e) == e.id && EVENTS.key(e) in KeysOf(added, EVENTS);
    }
  }

  lemma EventIdentityCommutes(db: Db, a: Sections, b: Sections, id: int)
    requires SucceedBothWays(db, a, b) && id !in db.events && id in KeysOf(a.events, EVENTS)
    requires id in Imported(Imported(db, a), b).events && id in Imported(Imported(db, b), a).events
    ensures SameIdentity(Imported(Imported(db, a), b).events[id], Imported(Imported(db, b), a).events[id])
  {
    hide Planned, Collisions, Merge, Mergeable, Succeeds, Imported, EventOk, DOCS, RUNS, SEM_RUNS, CANDIDATES;
    var afterA, afterB := Imported(db, a), Imported(db, b);
    ImportIsMerge(db, a);
    ImportIsMerge(db, b);
    ImportIsMerge(afterA, b);
    ImportIsMerge(afterB, a);
    MergeContents(db.events, a.events, EVENTS);
    MergeContents(afterA.events, b.events, EVENTS);
    MergedRow(db.events, b.events, a.events, EVENTS, id);
    assert afterA.events[id] == Imported(afterA, b).events[id];
    var other := Imported(afterB, a).events[id];
    assert EVENTS.key(other) == other.id;
    if id in KeysOf(b.events, EVENTS) {
      assert other in b.events && other.id == id && SameIdentity(afterA.events[id], other);
    } else {
      assert other in a.events && afterA.events[EVENTS.key(other)] == other;
    }
  }

  lemma IdentitiesCommute(db: Db, a: Sections, b: Sections)
    requires SucceedBothWays(db, a, b)
    ensures SameIdentities(Imported(Imported(db, a), b), Imported(Imported(db, b), a))
  {
    hide Planned, Collisions, Merge, Mergeable, Succeeds, Imported, EVENTS, DOCS, RUNS, SEM_RUNS, CANDIDATES;
    var afterA, afterB := Imported(db, a), Imported(db, b);
    ImportIsMerge(db, a);
    ImportIsMerge(db, b);
    ImportIsMerge(afterA, b);
    ImportIsMerge(afterB, a);
    MergeContents(db.events, a.events, EVENTS);
    MergeContents(db.events, b.events, EVENTS);
    MergeContents(afterA.events, b.events, EVENTS);
    MergeContents(afterB.events, a.events, EVENTS);
    forall id | id in Imported(afterA, b).events && id in Imported(afterB, a).events
      ensures SameIdentity(Imported(afterA, b).events[id], Imported(afterB, a).events[id])
    {
      if id !in db.events {
        if id in KeysOf(a.events, EVENTS) {
          EventIdentityCommutes(db, a, b, id);
        } else {
          EventIdentityCommutes(db, b, a, id);
        }
      }
    }
  }

  lemma TablesCommute(db: Db, a: Sections, b: Sections)
    requires SucceedBothWays(db, a, b)
    ensures var ab, ba := Imported(Imported(db, a), b), Imported(Imported(db, b), a);
            && SameKeys(ab, ba)
            && (AgreeEverywhere(a, b) ==>
                  && ab.events == ba.events && ab.docs == ba.docs && ab.runs == ba.runs
                  && ab.semRuns == ba.semRuns && ab.candidates == ba.candidates)
  {
    hide Planned, Collisions, Merge, Mergeable, Succeeds, Imported, EVENTS, DOCS, RUNS, SEM_RUNS, CANDIDATES,
         AgreeOnShared;
    ImportIsMerge(db, a);
    ImportIsMerge(db, b);
    ImportIsMerge(Imported(db, a), b);
    ImportIsMerge(Imported(db, b), a);
    MergeCommutes(db.events, a.events, b.events, EVENTS);
    MergeCommutes(db.docs, a.docs, b.docs, DOCS);
    MergeCommutes(db.runs, a.runs, b.runs, RUNS);
    MergeCommutes(db.semRuns, a.semRuns, b.semRuns, SEM_RUNS);
    MergeCommutes(db.candidates, a.candidates, b.candidates, CANDIDATES);
  }

  /** Two imports that both succeed in both orders leave the same keys, the same event identities and
      the same id sequence, and the very same database when their rows agree on shared keys. */
  lemma ImportsCommute(db: Db, a: Sections, b: Sections)
    requires SucceedBothWays(db, a, b)
    ensures var ab, ba := Imported(Imported(db, a), b), Imported(Imported(db, b), a);
            && SameKeys(ab, ba) && SameIdentities(ab, ba) && ab.sequence == ba.sequence
            && (AgreeEverywhere(a, b) ==> ab == ba)
  {
    hide Succeeds, Imported, AgreeEverywhere, SameIdentities;
    TablesCommute(db, a, b);
    IdentitiesCommute(db, a, b);
    SequenceAfterImport(db, a);
    SequenceAfterImport(db, b);
    SequenceAfterImport(Imported(db, a), b);
    SequenceAfterImport(Imported(db, b), a);
  }

  // ---------------------------------------------------------------------------
  // Round trip
  // ---------------------------------------------------------------------------

  /** Rows listed out of a well-kept table. */
  ghost predicate ListedFrom<K, V(!new)>(table: map<K, V>, rows: seq<V>, schema: Schema<K, V>) {
    && WellKept(table, schema) && Distinct(rows)
    && forall r | r in rows :: schema.key(r) in table && table[schema.key(r)] == r
  }

  /** They can all be inserted into an empty table, which then holds exactly them. */
  lemma Reload<K(!new), V(!new)>(table: map<K, V>, none: map<K, V>, rows: seq<V>, schema: Schema<K, V>)
    requires ListedFrom(table, rows, schema) && none == map[]
    ensures Insertable(none, rows, schema)
    ensures var t := Inserted(none, rows, schema);
            && (forall r :: schema.key(r) in t && t[schema.key(r)] == r <==> r in rows)
            && (forall k | k in t :: schema.key(t[k]) == k)
  {
    hide Inserted, Insertable;
    forall i, j | 0 <= i < j < |rows|
      ensures schema.key(rows[i]) != schema.key(rows[j]) && !schema.clash(rows[i], rows[j])
    {
      assert rows[i] in rows && rows[j] in rows;
    }
    InsertableIff(none, rows, schema);
    InsertedContents(none, rows, schema);
    var t := Inserted(none, rows, schema);
    forall k | k in t
      ensures t[k] in rows && schema.key(t[k]) == k
    {
      RowAfterInsert(none, rows, schema, k);
    }
  }

  lemma FetchIsListed(db: Db, filter: Option<ExportFilter>, includeProposed: bool)
    requires Sound(db)
    ensures var s := Fetch(db, filter, includeProposed);
            && ListedFrom(db.events, s.events, EVENTS) && ListedFrom(db.docs, s.docs, DOCS)
            && ListedFrom(db.runs, s.runs, RUNS) && ListedFrom(db.semRuns, s.semRuns, SEM_RUNS)
            && ListedFrom(db.candidates, s.candidates, CANDIDATES)
  {
    hide Sound, WellKept, Selected, Kept, WantedPaths, TotalOrderOn, OrderedBy, EventOk, DocOk, RunOk, SemRunOk,
         CandidateOk, KeptEvents, FetchDocs, FetchRuns, FetchSemRuns, FetchCandidates, SelectedDocs, SelectedRuns,
         SelectedSemRuns, SelectedCandidates;
    SoundTables(db);
    var s := Fetch(db, filter, includeProposed);
    KeptListing(db, filter, includeProposed);
    DocsListed(db, s.events, filter);
    RunsListed(db, s.docs);
    SemRunsListed(db, s.candidates);
    CandidatesListed(db, s.events);
    ExportIsClosed(db, filter, includeProposed);
  }

  lemma PlanAllInserts<T(!new)>(rows: seq<T>, verdict: T -> Verdict)
    requires forall r | r in rows :: verdict(r) == Insert
    ensures PlanOf(rows, verdict) == Plan(rows, [], [])
  {
    FilterAll(rows, r => verdict(r) == Insert);
    FilterNone(rows, r => verdict(r) == Skip);
    FilterNone(rows, r => verdict(r) == Collide);
  }

  function AllInserted(s: Sections): Plans {
    Plans(Plan(s.events, [], []), Plan(s.docs, [], []), Plan(s.runs, [], []), Plan(s.semRuns, [], []),
          Plan(s.candidates, [], []))
  }

  /** Every promoted id is the id of an event of the same bundle. */
  ghost predicate SelfContained(s: Sections) {
    forall c | c in s.candidates && c.promotedId.Some? :: c.promotedId.value in Ids(s.events)
  }

  lemma FetchIsSelfContained(db: Db, filter: Option<ExportFilter>, includeProposed: bool)
    requires Sound(db)
    ensures SelfContained(Fetch(db, filter, includeProposed))
  {
    hide Fetch, Sound, Selected, Kept, WantedPaths;
    ExportIsClosed(db, filter, includeProposed);
    var s := Fetch(db, filter, includeProposed);
    forall c | c in s.candidates && c.promotedId.Some?
      ensures c.promotedId.value in Ids(s.events)
    {
      var e :| e in s.events && c.promotedId == Some(e.id);
      var i :| 0 <= i < |s.events| && s.events[i] == e;
      assert Ids(s.events)[i] == e.id;
    }
  }

  /** Whatever the target database, a bundle whose promoted ids it contains never collides on a
      dangling candidate. */
  lemma NoDanglingCandidates(db: Db, s: Sections)
    requires SelfContained(s)
    ensures Planned(db, s).candidates.collisions == []
  {
    hide SameIdentity;
    var events := PlanOf(s.events, e => EventVerdict(db, e));
    var incoming := Ids(events.inserts);
    forall c | c in s.candidates
      ensures CandidateVerdict(db, incoming, c) != Collide
    {
      if c.promotedId.Some? && c.promotedId.value !in db.events {
        var i :| 0 <= i < |s.events| && Ids(s.events)[i] == c.promotedId.value;
        assert s.events[i] in s.events && s.events[i] in events.inserts;
        var j :| 0 <= j < |events.inserts| && events.inserts[j] == s.events[i];
        assert incoming[j] == c.promotedId.value;
      }
    }
    NothingCollides(s.candidates, c => CandidateVerdict(db, incoming, c));
  }

  lemma NothingCollides<T(!new)>(rows: seq<T>, verdict: T -> Verdict)
    requires forall r | r in rows :: verdict(r) != Collide
    ensures PlanOf(rows, verdict).collisions == []
  {
    FilterNone(rows, r => verdict(r) == Collide);
  }

  lemma ExportNeverDangles(db: Db, filter: Option<ExportFilter>, includeProposed: bool, target: Db)
    requires Sound(db)
    ensures Planned(target, Fetch(db, filter, includeProposed)).candidates.collisions == []
  {
    hide *;
    FetchIsSelfContained(db, filter, includeProposed);
    NoDanglingCandidates(target, Fetch(db, filter, includeProposed));
  }

  lemma PlanIntoEmpty(s: Sections)
    requires SelfContained(s)
    ensures Planned(EMPTY, s) == AllInserted(s)
  {
    hide PlanOf, Ids;
    PlanAllInserts(s.events, e => EventVerdict(EMPTY, e));
    PlanAllInserts(s.docs, d => DocVerdict(EMPTY, d));
    PlanAllInserts(s.runs, r => RunVerdict(EMPTY, r));
    PlanAllInserts(s.semRuns, r => SemRunVerdict(EMPTY, r));
    var incoming := Ids(s.events);
    PlanAllInserts(s.candidates, c => CandidateVerdict(EMPTY, incoming, c));
  }

  ghost predicate HoldsExactly(n: Db, s: Sections) {
    && (forall e: Event :: e.id in n.events && n.events[e.id] == e <==> e in s.events)
    && (forall d: Doc :: d.sourceId in n.docs && n.docs[d.sourceId] == d <==> d in s.docs)
    && (forall r: Run :: r.runId in n.runs && n.runs[r.runId] == r <==> r in s.runs)
    && (forall r: SemRun :: r.runId in n.semRuns && n.semRuns[r.runId] == r <==> r in s.semRuns)
    && (forall c: Candidate ::
          c.candidateId in n.candidates && n.candidates[c.candidateId] == c <==> c in s.candidates)
  }

  /** The database an exported bundle makes of an empty one: accepted as a whole, and holding exactly
      the exported rows. */
  lemma ExportReloads(db: Db, filter: Option<ExportFilter>, includeProposed: bool)
    requires Sound(db)
    ensures var s := Fetch(db, filter, includeProposed);
            var n := Imported(EMPTY, s);
            Succeeds(EMPTY, s) && Sound(n) && HoldsExactly(n, s)
  {
    hide Planned, Fetch, Inserted, Insertable, EventOk, DocOk, RunOk, SemRunOk, CandidateOk, ListedFrom, Bumped, Sound;
    var s := Fetch(db, filter, includeProposed);
    FetchIsListed(db, filter, includeProposed);
    FetchIsSelfContained(db, filter, includeProposed);
    PlanIntoEmpty(s);
    Reload(db.events, EMPTY.events, s.events, EVENTS);
    Reload(db.docs, EMPTY.docs, s.docs, DOCS);
    Reload(db.runs, EMPTY.runs, s.runs, RUNS);
    Reload(db.semRuns, EMPTY.semRuns, s.semRuns, SEM_RUNS);
    Reload(db.candidates, EMPTY.candidates, s.candidates, CANDIDATES);
    EmptyIsSound();
    ImportKeepsSound(EMPTY, s);
    forall e: Event
      ensures EVENTS.key(e) == e.id
    {
    }
    forall d: Doc
      ensures DOCS.key(d) == d.sourceId
    {
    }
    forall r: Run
      ensures RUNS.key(r) == r.runId
    {
    }
    forall r: SemRun
      ensures SEM_RUNS.key(r) == r.runId
    {
    }
    forall c: Candidate
      ensures CANDIDATES.key(c) == c.candidateId
    {
    }
  }

  lemma EmptyIsSound()
    ensures Sound(EMPTY)
  {
  }

  lemma SameListing<T(!new)>(r: seq<T>, q: seq<T>, s: set<T>, t: set<T>, le: (T, T) -> bool)
    requires IsListing(r, s, le) && IsListing(q, t, le) && TotalOrderOn(s, le)
    requires forall x :: x in r <==> x in q
    ensures r == q
  {
    assert s == t;
    ListingUnique(r, q, s, le);
  }

  lemma RefetchEvents(db: Db, n: Db, filter: Option<ExportFilter>, includeProposed: bool)
    requires Sound(db) && Sound(n) && HoldsExactly(n, Fetch(db, filter, includeProposed))
    ensures KeptEvents(n, None, includeProposed) == Fetch(db, filter, includeProposed).events
  {
    hide Sound, Selected, Kept, SelectedEvents, TotalOrderOn, IsListing, FetchEvents, KeptEvents, FetchDocs, FetchRuns,
         FetchCandidates, FetchSemRuns;
    EventSection(db, filter, includeProposed);
    EventSection(n, None, includeProposed);
    KeptListing(db, filter, includeProposed);
    KeptListing(n, None, includeProposed);
    KeptSortable(db, filter, includeProposed);
    forall e
      ensures e in KeptEvents(db, filter, includeProposed) <==> e in KeptEvents(n, None, includeProposed)
    {
      NoFilterSelects(n, e);
    }
    SameListing(KeptEvents(db, filter, includeProposed), KeptEvents(n, None, includeProposed),
                KeptSet(db, filter, includeProposed), KeptSet(n, None, includeProposed), EventLe);
  }

  lemma NoFilterSelects(db: Db, e: Event)
    ensures Selected(db, None, e)
  {
  }

  lemma KeptSortable(db: Db, filter: Option<ExportFilter>, includeProposed: bool)
    requires Sound(db)
    ensures TotalOrderOn(KeptSet(db, filter, includeProposed), EventLe)
  {
    hide Sound, Selected, Kept;
    EventsSortable(db, KeptSet(db, filter, includeProposed));
  }

  /** Documents come back exactly when each is the source of an exported event. */
  lemma RefetchDocs(db: Db, n: Db, s: Sections, filter: Option<ExportFilter>)
    requires Sound(db) && Sound(n) && HoldsExactly(n, s) && s.docs == FetchDocs(db, s.events, filter)
    ensures FetchDocs(n, s.events, None) == s.docs <==> forall d | d in s.docs :: d.path in SourcesOf(s.events)
  {
    hide Sound, SourcesOf, TotalOrderOn, IsListing, FetchDocs, SelectedDocs, PathsOf;
    DocSection(n, s.events, None);
    DocsListed(db, s.events, filter);
    DocsListed(n, s.events, None);
    if forall d | d in s.docs :: d.path in SourcesOf(s.events) {
      SameListing(FetchDocs(db, s.events, filter), FetchDocs(n, s.events, None),
                  SelectedDocs(db, WantedPaths(db, s.events, filter)),
                  SelectedDocs(n, WantedPaths(n, s.events, None)), DocLe);
    }
  }

  lemma RefetchRuns(db: Db, n: Db, s: Sections)
    requires Sound(db) && Sound(n) && HoldsExactly(n, s) && s.runs == FetchRuns(db, s.docs)
    ensures FetchRuns(n, s.docs) == s.runs
  {
    hide Sound, TotalOrderOn, IsListing, FetchRuns, SelectedRuns;
    RunSection(db, s.docs);
    RunSection(n, s.docs);
    RunsListed(db, s.docs);
    RunsListed(n, s.docs);
    SameListing(s.runs, FetchRuns(n, s.docs), SelectedRuns(db, s.docs), SelectedRuns(n, s.docs), RunLe);
  }

  lemma RefetchCandidates(db: Db, n: Db, s: Sections)
    requires Sound(db) && Sound(n) && HoldsExactly(n, s) && s.candidates == FetchCandidates(db, s.events)
    ensures FetchCandidates(n, s.events) == s.candidates
  {
    hide Sound, TotalOrderOn, IsListing, FetchCandidates, SelectedCandidates;
    CandidateSection(db, s.events);
    CandidateSection(n, s.events);
    CandidatesListed(db, s.events);
    CandidatesListed(n, s.events);
    SameListing(s.candidates, FetchCandidates(n, s.events), SelectedCandidates(db, s.events),
                SelectedCandidates(n, s.events), CandidateLe);
  }

  lemma RefetchSemRuns(db: Db, n: Db, s: Sections)
    requires Sound(db) && Sound(n) && HoldsExactly(n, s) && s.semRuns == FetchSemRuns(db, s.candidates)
    ensures FetchSemRuns(n, s.candidates) == s.semRuns
  {
    hide Sound, TotalOrderOn, IsListing, FetchSemRuns, SelectedSemRuns;
    SemRunSection(db, s.candidates);
    SemRunSection(n, s.candidates);
    SemRunsListed(db, s.candidates);
    SemRunsListed(n, s.candidates);
    SameListing(s.semRuns, FetchSemRuns(n, s.candidates), SelectedSemRuns(db, s.candidates),
                SelectedSemRuns(n, s.candidates), SemRunLe);
  }

  /** Export, import into empty tables, export again without a filter: the same five sections in the
      same order, exactly when every exported document is the source of an exported event.  The
      documents of explicitly requested source ids need not be. */
  lemma RoundTripIff(db: Db, filter: Option<ExportFilter>, includeProposed: bool)
    requires Sound(db)
    ensures var s := Fetch(db, filter, includeProposed);
            var n := Imported(EMPTY, s);
            && Succeeds(EMPTY, s) && Sound(n)
            && (Fetch(n, None, includeProposed) == s <==> forall d | d in s.docs :: d.path in SourcesOf(s.events))
  {
    hide Sound, Imported, Succeeds, HoldsExactly, KeptEvents, FetchDocs, FetchRuns, FetchCandidates, FetchSemRuns,
         SourcesOf;
    ExportReloads(db, filter, includeProposed);
    var s := Fetch(db, filter, includeProposed);
    var n := Imported(EMPTY, s);
    RefetchEvents(db, n, filter, includeProposed);
    RefetchDocs(db, n, s, filter);
    RefetchRuns(db, n, s);
    RefetchCandidates(db, n, s);
    RefetchSemRuns(db, n, s);
  }

  /** An unfiltered export always survives the round trip. */
  lemma UnfilteredRoundTrip(db: Db, includeProposed: bool)
    requires Sound(db)
    ensures var s := Fetch(db, None, includeProposed);
            Succeeds(EMPTY, s) && Sound(Imported(EMPTY, s)) && Fetch(Imported(EMPTY, s), None, includeProposed) == s
  {
    hide Sound, Imported, Succeeds, Fetch, Selected, Kept, SourcesOf;
    RoundTripIff(db, None, includeProposed);
    ExportIsClosed(db, None, includeProposed);
  }

  /** What the caller can check beforehand: the path of every requested document is the source of an
      event that the filter selects and the export keeps. */
  ghost predicate RequestedAreSources(db: Db, filter: Option<ExportFilter>, includeProposed: bool) {
    filter.Some? ==>
      forall id | id in filter.value.sourceIds && id in db.docs ::
        IsExportedSource(db, filter, includeProposed, db.docs[id].path)
  }

  ghost predicate IsExportedSource(db: Db, filter: Option<ExportFilter>, includeProposed: bool, path: string) {
    exists k :: k in db.events && Selected(db, filter, db.events[k]) && Kept(includeProposed, db.events[k])
                && db.events[k].source == path
  }

  lemma ExportedSourceIff(db: Db, filter: Option<ExportFilter>, includeProposed: bool, path: string)
    requires Sound(db)
    ensures IsExportedSource(db, filter, includeProposed, path)
       <==> path in SourcesOf(KeptEvents(db, filter, includeProposed))
  {
    hide Selected, Kept, KeptEvents;
    EventSection(db, filter, includeProposed);
    var events := KeptEvents(db, filter, includeProposed);
    if k :| k in db.events && Selected(db, filter, db.events[k]) && Kept(includeProposed, db.events[k])
            && db.events[k].source == path
    {
      assert EVENTS.key(db.events[k]) == k && EVENTS.ok(db.events[k]);
      assert db.events[k] in events;
    }
  }

  lemma DocsAreSourcesIff(db: Db, filter: Option<ExportFilter>, includeProposed: bool)
    requires Sound(db)
    ensures var s := Fetch(db, filter, includeProposed);
            (forall d | d in s.docs :: d.path in SourcesOf(s.events))
            <==> RequestedAreSources(db, filter, includeProposed)
  {
    hide Sound, Selected, Kept, KeptEvents, FetchRuns, FetchCandidates, FetchSemRuns, FetchDocs, IsExportedSource,
         SourcesOf;
    var s := Fetch(db, filter, includeProposed);
    DocSection(db, s.events, filter);
    forall path
      ensures IsExportedSource(db, filter, includeProposed, path) <==> path in SourcesOf(s.events)
    {
      ExportedSourceIff(db, filter, includeProposed, path);
    }
    if filter.Some? && forall d | d in s.docs :: d.path in SourcesOf(s.events) {
      forall id | id in filter.value.sourceIds && id in db.docs
        ensures IsExportedSource(db, filter, includeProposed, db.docs[id].path)
      {
        KeyOfDoc(db, id);
        assert db.docs[id].path in PathsOf(db, filter.value.sourceIds);
        assert db.docs[id] in s.docs;
      }
    }
  }

  lemma KeyOfDoc(db: Db, id: string)
    requires Sound(db) && id in db.docs
    ensures db.docs[id].sourceId == id
  {
    assert DOCS.key(db.docs[id]) == id;
  }

  /** The bundles themselves, through validation and import: an export is accepted by an empty database
      and reported as inserted in full, importing it again inserts nothing, and the unfiltered re-export
      has the same sections exactly when every requested document is an exported event's source. */
  lemma BundleRoundTrip(db: Db, filter: Option<ExportFilter>, includeProposed: bool, stamp: Stamp, later: Stamp,
                        sha: Digest)
    requires Sound(db)
    ensures var b := Export(db, filter, includeProposed, stamp, sha);
            var s := SectionsOf(b);
            var (n, r) := ImportOutcome(EMPTY, b, false, sha);
            var (again, second) := ImportOutcome(n, b, false, sha);
            && Sound(n) && r.Ok? && r.value.collisions == []
            && r.value.imported == Tally(|s.events|, |s.docs|, |s.runs|, |s.semRuns|, |s.candidates|)
            && again == n && second.Ok? && second.value.imported == Tally(0, 0, 0, 0, 0)
            && (SectionsOf(Export(n, None, includeProposed, later, sha)) == s
                <==> RequestedAreSources(db, filter, includeProposed))
  {
    hide Sound, Fetch, Planned, Written, Writable, Valid, Export, SectionsOf, RequestedAreSources, SourcesOf,
         Collisions;
    var b := Export(db, filter, includeProposed, stamp, sha);
    var s := Fetch(db, filter, includeProposed);
    ExportIsValid(db, filter, includeProposed, stamp, sha);
    ExportedSections(db, filter, includeProposed, stamp, sha);
    RoundTripIff(db, filter, includeProposed);
    DocsAreSourcesIff(db, filter, includeProposed);
    FetchIsSelfContained(db, filter, includeProposed);
    PlanIntoEmpty(s);
    SecondImportInsertsNothing(EMPTY, s, false);
    ExportedSections(Imported(EMPTY, s), None, includeProposed, later, sha);
  }

  /** A round trip that loses a document: a database of one document and no events, exported by that
      document's id. */
  lemma RequestedDocumentIsLost(d: Doc, includeProposed: bool)
    requires DocOk(d)
    ensures var db := EMPTY.(docs := map[d.sourceId := d]);
            var filter := Some(ExportFilter([], [d.sourceId], false, None, None));
            && Sound(db) && !RequestedAreSources(db, filter, includeProposed)
            && var s := Fetch(db, filter, includeProposed);
               var n := Imported(EMPTY, s);
               d in s.docs && Sound(n) && Fetch(n, None, includeProposed) != s
  {
    hide DocOk, Fetch, FetchDocs, Selected, Kept, Imported, KeptEvents;
    var db := EMPTY.(docs := map[d.sourceId := d]);
    var filter := Some(ExportFilter([], [d.sourceId], false, None, None));
    assert Sound(db);
    assert d.sourceId in filter.value.sourceIds && d.sourceId in db.docs && db.docs[d.sourceId] == d;
    assert !IsExportedSource(db, filter, includeProposed, db.docs[d.sourceId].path);
    RoundTripIff(db, filter, includeProposed);
    DocsAreSourcesIff(db, filter, includeProposed);
    ExportIsClosed(db, filter, includeProposed);
    assert d.path in PathsOf(db, filter.value.sourceIds);
  }

  /** Imports keep explicit ids, zero and negative ones included. */
  lemma AnyIdCanBeImported(e: Event)
    requires EventOk(e)
    ensures var s := Sections([e], [], [], [], []);
            Succeeds(EMPTY, s) && e.id in Imported(EMPTY, s).events && Imported(EMPTY, s).events[e.id] == e
  {
    hide EventOk, DocOk, RunOk, SemRunOk, CandidateOk, PlanOf;
    var s := Sections([e], [], [], [], []);
    PlanIntoEmpty(s);
    NoCollisions(Planned(EMPTY, s));
    var table := map[e.id := e];
    assert EVENTS.key(e) == e.id && EVENTS.ok(e);
    Reload(table, EMPTY.events, s.events, EVENTS);
    assert e in s.events;
  }

  // ---------------------------------------------------------------------------
  // Refusals
  // ---------------------------------------------------------------------------

  /** When a planned import hits a constraint.  The planning compares the bundle with the database
      only, so a key repeated inside the bundle shows up here. */
  lemma WritableIff(db: Db, s: Sections)
    requires Collisions(Planned(db, s)) == []
    ensures Writable(db, Planned(db, s)) <==>
              && AllMergeable(db, s)
              && (forall e | e in s.events && e.id !in db.events :: EventOk(e))
              && (forall d | d in s.docs && d.sourceId !in db.docs :: DocOk(d))
              && (forall r | r in s.runs && r.runId !in db.runs :: RunOk(r))
              && (forall r | r in s.semRuns && r.runId !in db.semRuns :: SemRunOk(r))
              && (forall c | c in s.candidates && c.candidateId !in db.candidates :: CandidateOk(c))
              && Unclashing(db.docs, Absent(db.docs, s.docs, DOCS), DOCS)
  {
    hide Planned, Collisions, Inserted, Insertable, EventOk, DocOk, RunOk, SemRunOk, CandidateOk, Mergeable, Absent;
    PlansWithoutCollisions(db, s);
    AbsentInsertable(db.events, s.events, EVENTS);
    AbsentInsertable(db.docs, s.docs, DOCS);
    AbsentInsertable(db.runs, s.runs, RUNS);
    AbsentInsertable(db.semRuns, s.semRuns, SEM_RUNS);
    AbsentInsertable(db.candidates, s.candidates, CANDIDATES);
  }

  lemma AbsentInsertable<K(!new), V(!new)>(table: map<K, V>, rows: seq<V>, schema: Schema<K, V>)
    ensures Insertable(table, Absent(table, rows, schema), schema) <==>
              && Mergeable(table, rows, schema)
              && (forall r | r in rows && schema.key(r) !in table :: schema.ok(r))
              && Unclashing(table, Absent(table, rows, schema), schema)
    ensures (forall a, b :: !schema.clash(a, b)) ==> Unclashing(table, Absent(table, rows, schema), schema)
  {
    hide Insertable;
    InsertableIff(table, Absent(table, rows, schema), schema);
  }

  lemma OneRow<K(!new), V(!new)>(table: map<K, V>, x: V, schema: Schema<K, V>, verdict: V -> Verdict)
    ensures PlanOf([x], verdict) == match verdict(x)
                                    case Insert => Plan([x], [], [])
                                    case Skip => Plan([], [x], [])
                                    case Collide => Plan([], [], [x])
    ensures Insertable(table, [x], schema) <==>
              schema.key(x) !in table && schema.ok(x) && forall k | k in table :: !schema.clash(table[k], x)
  {
    hide Insertable;
    InsertableIff(table, [x], schema);
    var none: seq<V> := [];
    assert [x] == none + [x];
    FilterSnoc(none, x, r => verdict(r) == Insert);
    FilterSnoc(none, x, r => verdict(r) == Skip);
    FilterSnoc(none, x, r => verdict(r) == Collide);
  }

  /** Which single rows are accepted: the constraints of the five tables, end to end. */
  lemma NewEventIsAcceptedIff(db: Db, e: Event)
    requires e.id !in db.events
    ensures Succeeds(db, Sections([e], [], [], [], [])) <==>
              && e.title != "" && e.summary != "" && e.source != "" && e.createdBy != ""
              && e.confidence in {1, 2, 3, 4, 5}
              && e.eventType in {"architecture_decision", "governance_rule", "hypothesis", "experiment",
                                 "validation_result", "adaptation", "regime_observation", "implementation_note",
                                 "open_question", "rejected_idea", "incident", "source_reference"}
              && e.status in {"proposed", "accepted", "rejected", "superseded", "active", "archived", "unresolved",
                              "deprecated"}
  {
    hide PlanOf;
    OneRow(db.events, e, EVENTS, r => EventVerdict(db, r));
    NothingPlanned(db, Ids([e]));
  }

  lemma NewDocumentIsAcceptedIff(db: Db, d: Doc)
    requires d.sourceId !in db.docs
    ensures Succeeds(db, Sections([], [d], [], [], [])) <==>
              && !(exists k | k in db.docs :: db.docs[k].path == d.path && db.docs[k].version == d.version)
              && !(exists k | k in db.docs :: db.docs[k].path == d.path && db.docs[k].checksum == d.checksum)
              && d.sourceType in {"doctrine", "research_note", "article", "transcript", "implementation_brief",
                                  "architecture_doc", "external_reference", "unknown"}
              && d.tier in {"authoritative", "high", "medium", "low", "unknown"}
              && d.status in {"active", "superseded", "deprecated", "rejected", "archived"}
  {
    hide PlanOf;
    OneRow(db.docs, d, DOCS, r => DocVerdict(db, r));
    NothingPlanned(db, Ids([]));
  }

  lemma NewRunIsAcceptedIff(db: Db, r: Run)
    requires r.runId !in db.runs
    ensures Succeeds(db, Sections([], [], [r], [], [])) <==> r.status in {"candidate_generated", "committed", "failed"}
  {
    hide PlanOf;
    OneRow(db.runs, r, RUNS, x => RunVerdict(db, x));
    NothingPlanned(db, Ids([]));
  }

  lemma NewSemRunIsAcceptedIff(db: Db, r: SemRun)
    requires r.runId !in db.semRuns
    ensures Succeeds(db, Sections([], [], [], [r], [])) <==> r.status in {"completed", "failed", "partial"}
  {
    hide PlanOf;
    OneRow(db.semRuns, r, SEM_RUNS, x => SemRunVerdict(db, x));
    NothingPlanned(db, Ids([]));
  }

  lemma NewCandidateIsAcceptedIff(db: Db, c: Candidate)
    requires c.candidateId !in db.candidates
    ensures Succeeds(db, Sections([], [], [], [], [c])) <==>
              && (c.promotedId == None || c.promotedId.value in db.events)
              && 0 <= c.index && c.confidence in {1, 2, 3, 4, 5} && c.status in {"candidate", "promoted", "rejected"}
  {
    hide PlanOf;
    NothingPlanned(db, Ids([]));
    OneRow(db.candidates, c, CANDIDATES, x => CandidateVerdict(db, Ids([]), x));
  }

  lemma NothingPlanned(db: Db, incoming: seq<int>)
    ensures PlanOf([], d => DocVerdict(db, d)) == Plan([], [], [])
    ensures PlanOf([], r => RunVerdict(db, r)) == Plan([], [], [])
    ensures PlanOf([], r => SemRunVerdict(db, r)) == Plan([], [], [])
    ensures PlanOf([], e => EventVerdict(db, e)) == Plan([], [], [])
    ensures PlanOf([], c => CandidateVerdict(db, incoming, c)) == Plan([], [], [])
  {
  }

  /** Nothing in the bundle could be inserted. */
  ghost predicate NothingNew(db: Db, s: Sections) {
    && (forall e | e in s.events :: e.id in db.events)
    && (forall d | d in s.docs :: d.sourceId in db.docs || VersionTaken(db, d))
    && (forall r | r in s.runs :: r.runId in db.runs)
    && (forall r | r in s.semRuns :: r.runId in db.semRuns)
    && (forall c | c in s.candidates ::
          c.candidateId in db.candidates || (c.promotedId.Some? && c.promotedId.value !in db.events))
  }

  lemma NoInsertsIff<T(!new)>(rows: seq<T>, verdict: T -> Verdict)
    ensures |PlanOf(rows, verdict).inserts| == 0 <==> forall r | r in rows :: verdict(r) != Insert
  {
    var p := PlanOf(rows, verdict);
    if |p.inserts| > 0 {
      assert p.inserts[0] in p.inserts;
    }
    assert forall r | r in rows && verdict(r) == Insert :: r in p.inserts;
  }

  /** A refused import reports the planned counts; they are zero, as its documentation says, exactly
      when nothing in the bundle is new to the database. */
  lemma ReportedZeroIff(db: Db, s: Sections, dryRun: bool)
    ensures Report(Planned(db, s), dryRun).imported == Tally(0, 0, 0, 0, 0) <==> NothingNew(db, s)
  {
    hide PlanOf, VersionTaken, SameIdentity, Collisions;
    var p := Planned(db, s);
    NoInsertsIff(s.events, e => EventVerdict(db, e));
    NoInsertsIff(s.docs, d => DocVerdict(db, d));
    NoInsertsIff(s.runs, r => RunVerdict(db, r));
    NoInsertsIff(s.semRuns, r => SemRunVerdict(db, r));
    var incoming := Ids(p.events.inserts);
    NoInsertsIff(s.candidates, c => CandidateVerdict(db, incoming, c));
  }

  /** A refused import that reports one imported event. */
  lemma RefusalReportsPlannedCounts(e: Event, known: Event, other: Event, stamp: Stamp, sha: Digest)
    requires EventOk(known) && known.id == e.id && !SameIdentity(known, e) && other.id != e.id
    ensures var db := EMPTY.(events := map[known.id := known], sequence := known.id);
            var s := Sections([e, other], [], [], [], []);
            var b := WithChecksum(Bundled(s, BuildManifest(s, None, None, stamp), stamp.references), sha);
            && Sound(db) && Valid(b, sha) && SectionsOf(b) == s
            && Collisions(Planned(db, s)) == [EventCollision(e)]
            && Report(Planned(db, s), false).imported == Tally(1, 0, 0, 0, 0)
  {
    hide EventOk, SameIdentity, Valid, BuildManifest, HasCounts, PlanOf;
    var s := Sections([e, other], [], [], [], []);
    ManifestCounts(s, None, None, stamp);
    ChecksummedBundleIsValid(Bundled(s, BuildManifest(s, None, None, stamp), stamp.references), sha);
    var db := EMPTY.(events := map[known.id := known], sequence := known.id);
    CollideThenInsert(e, other, x => EventVerdict(db, x));
    PlanNothing(s.docs, d => DocVerdict(db, d));
    PlanNothing(s.runs, r => RunVerdict(db, r));
    PlanNothing(s.semRuns, r => SemRunVerdict(db, r));
    var incoming := Ids([other]);
    PlanNothing(s.candidates, c => CandidateVerdict(db, incoming, c));
    var p := Planned(db, s);
    assert p == Plans(Plan([other], [], [e]), Plan([], [], []), Plan([], [], []), Plan([], [], []), Plan([], [], []));
  }

  lemma CollideThenInsert<T(!new)>(x: T, y: T, verdict: T -> Verdict)
    requires verdict(x) == Collide && verdict(y) == Insert
    ensures PlanOf([x, y], verdict) == Plan([y], [], [x])
  {
    hide PlanOf;
    PlanNothing([], verdict);
    PlanSnoc([], x, verdict);
    assert [] + [x] == [x];
    PlanSnoc([x], y, verdict);
    assert [x] + [y] == [x, y];
    assert [] + [y] == [y];
  }

  lemma PlanNothing<T(!new)>(none: seq<T>, verdict: T -> Verdict)
    requires none == []
    ensures PlanOf(none, verdict) == Plan([], [], [])
  {
  }
}
