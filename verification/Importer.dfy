/** Planning an import record by record, then refusing or writing it as a whole. */
module Importer {
  import opened Bundles
  import opened Events
  import opened Exporter
  import opened Outcomes
  import opened Tables

  // ---------------------------------------------------------------------------
  // Planning
  // ---------------------------------------------------------------------------

  datatype Verdict = Insert | Skip | Collide

  datatype Plan<T> = Plan(inserts: seq<T>, skips: seq<T>, collisions: seq<T>)

  function PlanOf<T(!new)>(rows: seq<T>, verdict: T -> Verdict): Plan<T> {
    Plan(Filter(rows, r => verdict(r) == Insert), Filter(rows, r => verdict(r) == Skip),
         Filter(rows, r => verdict(r) == Collide))
  }

  /** The planning loop, the same for each section: every row goes to exactly one of three lists. */
  method Classify<T(!new)>(rows: seq<T>, verdict: T -> Verdict) returns (p: Plan<T>)
    ensures p == PlanOf(rows, verdict)
  {
    var inserts, skips, collisions := [], [], [];
    for i := 0 to |rows|
      invariant Plan(inserts, skips, collisions) == PlanOf(rows[..i], verdict)
    {
      assert rows[..i + 1] == rows[..i] + [rows[i]];
      PlanSnoc(rows[..i], rows[i], verdict);
      match verdict(rows[i])
      case Insert => inserts := inserts + [rows[i]];
      case Skip => skips := skips + [rows[i]];
      case Collide => collisions := collisions + [rows[i]];
    }
    assert rows[..|rows|] == rows;
    return Plan(inserts, skips, collisions);
  }

  lemma PlanSnoc<T(!new)>(rows: seq<T>, row: T, verdict: T -> Verdict)
    ensures var p, q := PlanOf(rows, verdict), PlanOf(rows + [row], verdict);
            match verdict(row)
            case Insert => q == p.(inserts := p.inserts + [row])
            case Skip => q == p.(skips := p.skips + [row])
            case Collide => q == p.(collisions := p.collisions + [row])
  {
    FilterSnoc(rows, row, r => verdict(r) == Insert);
    FilterSnoc(rows, row, r => verdict(r) == Skip);
    FilterSnoc(rows, row, r => verdict(r) == Collide);
  }

  /** Nothing is planned twice and nothing is forgotten. */
  lemma {:induction false} PlanAccountsForAll<T(!new)>(rows: seq<T>, verdict: T -> Verdict)
    ensures var p := PlanOf(rows, verdict); |p.inserts| + |p.skips| + |p.collisions| == |rows|
  {
    if rows != [] {
      var before, last := rows[..|rows| - 1], rows[|rows| - 1];
      assert rows == before + [last];
      PlanAccountsForAll(before, verdict);
      PlanSnoc(before, last, verdict);
    }
  }

  predicate SameIdentity(a: Event, b: Event) {
    a.eventType == b.eventType && a.title == b.title && a.source == b.source
  }

  function EventVerdict(db: Db, e: Event): Verdict {
    if e.id !in db.events then Insert
    else if SameIdentity(db.events[e.id], e) then Skip
    else Collide
  }

  predicate VersionTaken(db: Db, d: Doc) {
    exists k | k in db.docs :: db.docs[k].path == d.path && db.docs[k].version == d.version
  }

  function DocVerdict(db: Db, d: Doc): Verdict {
    if d.sourceId in db.docs then Skip
    else if VersionTaken(db, d) then Collide
    else Insert
  }

  function RunVerdict(db: Db, r: Run): Verdict { if r.runId in db.runs then Skip else Insert }

  function SemRunVerdict(db: Db, r: SemRun): Verdict { if r.runId in db.semRuns then Skip else Insert }

  /** `incoming` are the ids of the events this import is about to insert. */
  function CandidateVerdict(db: Db, incoming: seq<int>, c: Candidate): Verdict {
    if c.candidateId in db.candidates then Skip
    else if c.promotedId.Some? && c.promotedId.value !in db.events && c.promotedId.value !in incoming then Collide
    else Insert
  }

  datatype Plans = Plans(events: Plan<Event>, docs: Plan<Doc>, runs: Plan<Run>, semRuns: Plan<SemRun>,
                         candidates: Plan<Candidate>)

  function Planned(db: Db, s: Sections): Plans {
    var events := PlanOf(s.events, e => EventVerdict(db, e));
    Plans(events,
          PlanOf(s.docs, d => DocVerdict(db, d)),
          PlanOf(s.runs, r => RunVerdict(db, r)),
          PlanOf(s.semRuns, r => SemRunVerdict(db, r)),
          PlanOf(s.candidates, c => CandidateVerdict(db, Ids(events.inserts), c)))
  }

  // ---------------------------------------------------------------------------
  // Reporting
  // ---------------------------------------------------------------------------

  datatype Tally = Tally(events: nat, docs: nat, runs: nat, semRuns: nat, candidates: nat)

  datatype Collision =
    | EventCollision(event: Event) | DocCollision(doc: Doc) | RunCollision(run: Run)
    | SemRunCollision(semRun: SemRun) | CandidateCollision(candidate: Candidate)

  function Tagged<T>(rows: seq<T>, tag: T -> Collision): seq<Collision> {
    seq(|rows|, i requires 0 <= i < |rows| => tag(rows[i]))
  }

  function Collisions(p: Plans): seq<Collision> {
    Tagged(p.events.collisions, e => EventCollision(e)) + Tagged(p.docs.collisions, d => DocCollision(d))
    + Tagged(p.runs.collisions, r => RunCollision(r)) + Tagged(p.semRuns.collisions, r => SemRunCollision(r))
    + Tagged(p.candidates.collisions, c => CandidateCollision(c))
  }

  datatype ImportResult = ImportResult(imported: Tally, skipped: Tally, collisions: seq<Collision>, dryRun: bool)

  function Report(p: Plans, dryRun: bool): ImportResult {
    ImportResult(Tally(|p.events.inserts|, |p.docs.inserts|, |p.runs.inserts|, |p.semRuns.inserts|,
                       |p.candidates.inserts|),
                 Tally(|p.events.skips|, |p.docs.skips|, |p.runs.skips|, |p.semRuns.skips|, |p.candidates.skips|),
                 Collisions(p), dryRun)
  }

  // ---------------------------------------------------------------------------
  // Writing
  // ---------------------------------------------------------------------------

  /** The id sequence after inserting events with explicit ids. */
  function Bumped(sequence: int, rows: seq<Event>): int {
    if rows == [] then sequence
    else
      var before := Bumped(sequence, rows[..|rows| - 1]);
      var id := rows[|rows| - 1].id;
      if before < id then id else before
  }

  function Written(db: Db, p: Plans): Db {
    Db(Inserted(db.events, p.events.inserts, EVENTS), Bumped(db.sequence, p.events.inserts),
       Inserted(db.docs, p.docs.inserts, DOCS), Inserted(db.runs, p.runs.inserts, RUNS),
       Inserted(db.semRuns, p.semRuns.inserts, SEM_RUNS),
       Inserted(db.candidates, p.candidates.inserts, CANDIDATES))
  }

  /** No insert of the plan violates a constraint of its table. */
  predicate Writable(db: Db, p: Plans) {
    && Insertable(db.docs, p.docs.inserts, DOCS)
    && Insertable(db.events, p.events.inserts, EVENTS)
    && Insertable(db.runs, p.runs.inserts, RUNS)
    && Insertable(db.semRuns, p.semRuns.inserts, SEM_RUNS)
    && Insertable(db.candidates, p.candidates.inserts, CANDIDATES)
  }

  /** An invalid bundle, a dry run, a collision and a violated constraint change nothing; otherwise
      exactly the plan is written. */
  function ImportOutcome(db: Db, b: Bundle, dryRun: bool, sha: Digest): (Db, Result<ImportResult>) {
    if !Valid(b, sha) then (db, Err(BundleValidationError))
    else
      var p := Planned(db, SectionsOf(b));
      if dryRun || Collisions(p) != [] then (db, Ok(Report(p, dryRun)))
      else if !Writable(db, p) then (db, Err(IntegrityError))
      else (Written(db, p), Ok(Report(p, false)))
  }

  // ---------------------------------------------------------------------------
  // What is reported
  // ---------------------------------------------------------------------------

  /** Some stored document has both this path and this version. */
  ghost predicate IsStored(db: Db, path: string, version: int) {
    exists k | k in db.docs :: db.docs[k].path == path && db.docs[k].version == version
  }

  ghost predicate Dangling(db: Db, b: Bundle, id: int) {
    id !in db.events && forall e | e in Get(b.events) :: e.id != id
  }

  /** The collisions: stored event ids with another type, title or source; unknown documents whose path
      and version are both those of one stored document; unknown candidates promoted to an event that is
      neither stored nor in the bundle.  Runs never collide. */
  ghost predicate IsCollision(db: Db, b: Bundle, x: Collision) {
    match x
    case EventCollision(e) =>
      && e in Get(b.events) && e.id in db.events
      && var known := db.events[e.id];
         known.eventType != e.eventType || known.title != e.title || known.source != e.source
    case DocCollision(d) =>
      && d in Get(b.docs) && d.sourceId !in db.docs
      && IsStored(db, d.path, d.version)
    case RunCollision(r) => false
    case SemRunCollision(r) => false
    case CandidateCollision(c) =>
      && c in Get(b.candidates) && c.candidateId !in db.candidates
      && c.promotedId.Some? && Dangling(db, b, c.promotedId.value)
  }

  ghost predicate ReportsCollisions(db: Db, b: Bundle, collisions: seq<Collision>) {
    forall x :: x in collisions <==> IsCollision(db, b, x)
  }

  lemma TaggedHas<T(!new)>(rows: seq<T>, tag: T -> Collision, x: Collision)
    ensures x in Tagged(rows, tag) <==> exists r :: r in rows && tag(r) == x
  {
    var all := Tagged(rows, tag);
    if x in all {
      var i :| 0 <= i < |all| && all[i] == x;
      assert rows[i] in rows;
    }
    if r :| r in rows && tag(r) == x {
      var i :| 0 <= i < |rows| && rows[i] == r;
      assert all[i] == x;
    }
  }

  /** Which list of the plan a collision comes from. */
  lemma CollisionsHave(p: Plans, x: Collision)
    ensures x in Collisions(p) <==>
              match x
              case EventCollision(e) => e in p.events.collisions
              case DocCollision(d) => d in p.docs.collisions
              case RunCollision(r) => r in p.runs.collisions
              case SemRunCollision(r) => r in p.semRuns.collisions
              case CandidateCollision(c) => c in p.candidates.collisions
  {
    hide Tagged;
    TaggedHas(p.events.collisions, e => EventCollision(e), x);
    TaggedHas(p.docs.collisions, d => DocCollision(d), x);
    TaggedHas(p.runs.collisions, r => RunCollision(r), x);
    TaggedHas(p.semRuns.collisions, r => SemRunCollision(r), x);
    TaggedHas(p.candidates.collisions, c => CandidateCollision(c), x);
  }

  lemma IncomingIds(db: Db, events: seq<Event>, id: int)
    requires id !in db.events
    ensures id in Ids(PlanOf(events, e => EventVerdict(db, e)).inserts) <==> exists e :: e in events && e.id == id
  {
    var inserts := PlanOf(events, e => EventVerdict(db, e)).inserts;
    if id in Ids(inserts) {
      var i :| 0 <= i < |inserts| && inserts[i].id == id;
      assert inserts[i] in inserts;
    }
    if e :| e in events && e.id == id {
      assert e in inserts;
      var i :| 0 <= i < |inserts| && inserts[i] == e;
      assert Ids(inserts)[i] == id;
    }
  }

  /** The planned collisions are these, said of the fields alone. */
  lemma CollisionsAreReported(db: Db, b: Bundle)
    ensures ReportsCollisions(db, b, Collisions(Planned(db, SectionsOf(b))))
  {
    hide Collisions, Planned, IsCollision;
    forall x: Collision
      ensures x in Collisions(Planned(db, SectionsOf(b))) <==> IsCollision(db, b, x)
    {
      PlannedCollision(db, b, x);
    }
  }

  lemma PlannedCollision(db: Db, b: Bundle, x: Collision)
    ensures x in Collisions(Planned(db, SectionsOf(b))) <==> IsCollision(db, b, x)
  {
    hide Collisions, Ids;
    var p := Planned(db, SectionsOf(b));
    CollisionsHave(p, x);
    if x.CandidateCollision? && x.candidate.promotedId.Some? && x.candidate.promotedId.value !in db.events {
      IncomingIds(db, Get(b.events), x.candidate.promotedId.value);
    }
  }

  ghost function Places<T(!new)>(rows: seq<T>, keep: T -> bool): set<int> {
    set i | 0 <= i < |rows| && keep(rows[i])
  }

  lemma PlacesSnoc<T(!new)>(rows: seq<T>, row: T, keep: T -> bool)
    ensures Places(rows + [row], keep) == if keep(row) then Places(rows, keep) + {|rows|} else Places(rows, keep)
  {
  }

  lemma {:induction false} FilterSize<T(!new)>(rows: seq<T>, keep: T -> bool)
    ensures |Filter(rows, keep)| == |Places(rows, keep)|
  {
    hide Filter, Places;
    if rows == [] {
      NoPlaces(rows, keep);
    } else {
      var before, last := rows[..|rows| - 1], rows[|rows| - 1];
      assert rows == before + [last];
      FilterSize(before, keep);
      FilterSnoc(before, last, keep);
      PlacesSnoc(before, last, keep);
      assert |before| !in Places(before, keep) by { PlaceBound(before, keep, |before|); }
    }
  }

  lemma NoPlaces<T(!new)>(rows: seq<T>, keep: T -> bool)
    requires rows == []
    ensures Filter(rows, keep) == [] && Places(rows, keep) == {}
  {
  }

  lemma PlaceBound<T(!new)>(rows: seq<T>, keep: T -> bool, i: int)
    ensures i in Places(rows, keep) ==> 0 <= i < |rows|
  {
  }

  /** How many rows a plan inserts and skips, when `inserts` and `skips` are their places. */
  lemma PlanCounts<T(!new)>(rows: seq<T>, verdict: T -> Verdict, inserts: set<int>, skips: set<int>)
    requires forall i :: i in inserts <==> 0 <= i < |rows| && verdict(rows[i]) == Insert
    requires forall i :: i in skips <==> 0 <= i < |rows| && verdict(rows[i]) == Skip
    ensures var p := PlanOf(rows, verdict); |p.inserts| == |inserts| && |p.skips| == |skips|
  {
    hide Filter;
    FilterSize(rows, r => verdict(r) == Insert);
    FilterSize(rows, r => verdict(r) == Skip);
    assert Places(rows, r => verdict(r) == Insert) == inserts;
    assert Places(rows, r => verdict(r) == Skip) == skips;
  }

  // The places of the rows that are new to the database, and of those it knows.

  ghost function NewEvents(db: Db, rows: seq<Event>): set<int> {
    set i | 0 <= i < |rows| && rows[i].id !in db.events
  }

  ghost function KnownEvents(db: Db, rows: seq<Event>): set<int> {
    set i | && 0 <= i < |rows| && rows[i].id in db.events
            && var known := db.events[rows[i].id];
               known.eventType == rows[i].eventType && known.title == rows[i].title && known.source == rows[i].source
  }

  ghost function NewDocs(db: Db, rows: seq<Doc>): set<int> {
    set i | 0 <= i < |rows| && rows[i].sourceId !in db.docs && !IsStored(db, rows[i].path, rows[i].version)
  }

  ghost function KnownDocs(db: Db, rows: seq<Doc>): set<int> {
    set i | 0 <= i < |rows| && rows[i].sourceId in db.docs
  }

  ghost function NewRuns(db: Db, rows: seq<Run>): set<int> {
    set i | 0 <= i < |rows| && rows[i].runId !in db.runs
  }

  ghost function KnownRuns(db: Db, rows: seq<Run>): set<int> {
    set i | 0 <= i < |rows| && rows[i].runId in db.runs
  }

  ghost function NewSemRuns(db: Db, rows: seq<SemRun>): set<int> {
    set i | 0 <= i < |rows| && rows[i].runId !in db.semRuns
  }

  ghost function KnownSemRuns(db: Db, rows: seq<SemRun>): set<int> {
    set i | 0 <= i < |rows| && rows[i].runId in db.semRuns
  }

  ghost function NewCandidates(db: Db, b: Bundle, rows: seq<Candidate>): set<int> {
    set i | && 0 <= i < |rows| && rows[i].candidateId !in db.candidates
            && (rows[i].promotedId.Some? ==> !Dangling(db, b, rows[i].promotedId.value))
  }

  ghost function KnownCandidates(db: Db, rows: seq<Candidate>): set<int> {
    set i | 0 <= i < |rows| && rows[i].candidateId in db.candidates
  }

  /** The reported counts: imported are the rows with a new key that do not collide, skipped those whose
      key is known, for events with the same identity. */
  ghost predicate ReportsCounts(db: Db, b: Bundle, r: ImportResult) {
    && r.imported == Tally(|NewEvents(db, Get(b.events))|, |NewDocs(db, Get(b.docs))|, |NewRuns(db, Get(b.runs))|,
                           |NewSemRuns(db, Get(b.semRuns))|, |NewCandidates(db, b, Get(b.candidates))|)
    && r.skipped == Tally(|KnownEvents(db, Get(b.events))|, |KnownDocs(db, Get(b.docs))|,
                          |KnownRuns(db, Get(b.runs))|, |KnownSemRuns(db, Get(b.semRuns))|,
                          |KnownCandidates(db, Get(b.candidates))|)
  }

  lemma CountsAreReported(db: Db, b: Bundle, dryRun: bool)
    ensures ReportsCounts(db, b, Report(Planned(db, SectionsOf(b)), dryRun))
  {
    hide Collisions, Ids, PlanOf, NewEvents, KnownEvents, NewDocs, KnownDocs, NewRuns, KnownRuns, NewSemRuns,
         KnownSemRuns, NewCandidates, KnownCandidates, EventVerdict, DocVerdict, RunVerdict, SemRunVerdict,
         CandidateVerdict;
    var incoming := Ids(PlanOf(Get(b.events), e => EventVerdict(db, e)).inserts);
    SectionCounts(db, Get(b.events), Get(b.docs), Get(b.runs), Get(b.semRuns));
    CandidateCounts(db, b, incoming);
  }

  lemma SectionCounts(db: Db, events: seq<Event>, docs: seq<Doc>, runs: seq<Run>, semRuns: seq<SemRun>)
    ensures var p := PlanOf(events, e => EventVerdict(db, e));
            |p.inserts| == |NewEvents(db, events)| && |p.skips| == |KnownEvents(db, events)|
    ensures var p := PlanOf(docs, d => DocVerdict(db, d));
            |p.inserts| == |NewDocs(db, docs)| && |p.skips| == |KnownDocs(db, docs)|
    ensures var p := PlanOf(runs, r => RunVerdict(db, r));
            |p.inserts| == |NewRuns(db, runs)| && |p.skips| == |KnownRuns(db, runs)|
    ensures var p := PlanOf(semRuns, r => SemRunVerdict(db, r));
            |p.inserts| == |NewSemRuns(db, semRuns)| && |p.skips| == |KnownSemRuns(db, semRuns)|
  {
    hide PlanOf;
    PlanCounts(events, e => EventVerdict(db, e), NewEvents(db, events), KnownEvents(db, events));
    PlanCounts(docs, d => DocVerdict(db, d), NewDocs(db, docs), KnownDocs(db, docs));
    PlanCounts(runs, r => RunVerdict(db, r), NewRuns(db, runs), KnownRuns(db, runs));
    PlanCounts(semRuns, r => SemRunVerdict(db, r), NewSemRuns(db, semRuns), KnownSemRuns(db, semRuns));
  }

  lemma CandidateCounts(db: Db, b: Bundle, incoming: seq<int>)
    requires incoming == Ids(PlanOf(Get(b.events), e => EventVerdict(db, e)).inserts)
    ensures var p := PlanOf(Get(b.candidates), c => CandidateVerdict(db, incoming, c));
            && |p.inserts| == |NewCandidates(db, b, Get(b.candidates))|
            && |p.skips| == |KnownCandidates(db, Get(b.candidates))|
  {
    hide PlanOf, Ids;
    var candidates := Get(b.candidates);
    forall id | id !in db.events
      ensures id in incoming <==> !Dangling(db, b, id)
    {
      IncomingIds(db, Get(b.events), id);
    }
    PlanCounts(candidates, c => CandidateVerdict(db, incoming, c), NewCandidates(db, b, candidates),
               KnownCandidates(db, candidates));
  }

  /** When an import succeeds, is refused, or fails, and what it then reports. */
  lemma ImportReports(db: Db, b: Bundle, dryRun: bool, sha: Digest)
    ensures var (after, r) := ImportOutcome(db, b, dryRun, sha);
            && (r.Ok? ==> ReportsCollisions(db, b, r.value.collisions) && ReportsCounts(db, b, r.value))
            && (r.Ok? && (dryRun || r.value.collisions != []) ==> after == db)
            && (r.Err? ==> after == db && r.error in {BundleValidationError, IntegrityError})
            && (r == Err(BundleValidationError) <==> !Valid(b, sha))
            && (r == Err(IntegrityError) ==> !dryRun && Collisions(Planned(db, SectionsOf(b))) == [])
  {
    hide Planned, Writable, Written, Valid, Report, Collisions, SectionsOf, ReportsCollisions, ReportsCounts;
    CollisionsAreReported(db, b);
    CountsAreReported(db, b, dryRun);
    CountsAreReported(db, b, false);
    ReportHolds(Planned(db, SectionsOf(b)), dryRun);
  }

  lemma ReportHolds(p: Plans, dryRun: bool)
    ensures Report(p, dryRun).collisions == Collisions(p) && Report(p, false).collisions == Collisions(p)
    ensures Report(p, dryRun).dryRun == dryRun && !Report(p, false).dryRun
  {
    hide Collisions;
  }

  method BumpSequence(sequence: int, rows: seq<Event>) returns (r: int)
    ensures r == Bumped(sequence, rows)
  {
    r := sequence;
    for i := 0 to |rows|
      invariant r == Bumped(sequence, rows[..i])
    {
      assert rows[..i + 1][..i] == rows[..i];
      if r < rows[i].id { r := rows[i].id; }
    }
    assert rows[..|rows|] == rows;
  }

  class Database {
    var events: map<int, Event>
    var sequence: int
    var docs: map<string, Doc>
    var runs: map<string, Run>
    var semRuns: map<string, SemRun>
    var candidates: map<string, Candidate>

    function Contents(): Db
      reads this
    {
      Db(events, sequence, docs, runs, semRuns, candidates)
    }

    constructor ()
      ensures Contents() == EMPTY
    {
      events, sequence, docs, runs, semRuns, candidates := map[], 0, map[], map[], map[], map[];
    }

    method PlanImport(s: Sections) returns (p: Plans)
      ensures p == Planned(Contents(), s)
    {
      hide PlanOf, EventVerdict, DocVerdict, RunVerdict, SemRunVerdict, CandidateVerdict, Ids;
      var db := Contents();
      var es := Classify(s.events, e => EventVerdict(db, e));
      var ds := Classify(s.docs, d => DocVerdict(db, d));
      var rs := Classify(s.runs, r => RunVerdict(db, r));
      var srs := Classify(s.semRuns, r => SemRunVerdict(db, r));
      var incoming := Ids(es.inserts);
      var cs := Classify(s.candidates, c => CandidateVerdict(db, incoming, c));
      return Plans(es, ds, rs, srs, cs);
    }

    /** One transaction: documents, events, runs, semantic runs, candidates; any violation rolls
        everything back. */
    method Write(p: Plans) returns (ok: bool)
      modifies this
      ensures ok <==> Writable(old(Contents()), p)
      ensures Contents() == if ok then Written(old(Contents()), p) else old(Contents())
    {
      hide EVENTS, DOCS, RUNS, SEM_RUNS, CANDIDATES, Insertable, Inserted;
      var d := InsertRows(docs, p.docs.inserts, DOCS);
      if d.None? { return false; }
      var e := InsertRows(events, p.events.inserts, EVENTS);
      if e.None? { return false; }
      var bumped := BumpSequence(sequence, p.events.inserts);
      var r := InsertRows(runs, p.runs.inserts, RUNS);
      if r.None? { return false; }
      var s := InsertRows(semRuns, p.semRuns.inserts, SEM_RUNS);
      if s.None? { return false; }
      var c := InsertRows(candidates, p.candidates.inserts, CANDIDATES);
      if c.None? { return false; }
      events, sequence, docs, runs, semRuns, candidates := e.value, bumped, d.value, r.value, s.value, c.value;
      return true;
    }

    /** `import_bundle` */
    method ImportBundle(b: Bundle, dryRun: bool, sha: Digest) returns (r: Result<ImportResult>)
      modifies this
      ensures (Contents(), r) == ImportOutcome(old(Contents()), b, dryRun, sha)
      ensures r.Ok? ==>
                && ReportsCollisions(old(Contents()), b, r.value.collisions)
                && ReportsCounts(old(Contents()), b, r.value) && r.value.dryRun == dryRun
    {
      hide Valid, Planned, Writable, Written, Report, Collisions, SectionsOf, ReportsCollisions, ReportsCounts;
      ImportReports(Contents(), b, dryRun, sha);
      ReportHolds(Planned(Contents(), SectionsOf(b)), dryRun);
      if !Valid(b, sha) { return Err(BundleValidationError); }
      var p := PlanImport(SectionsOf(b));
      if dryRun || Collisions(p) != [] { return Ok(Report(p, dryRun)); }
      var ok := Write(p);
      if !ok { return Err(IntegrityError); }
      return Ok(Report(p, false));
    }
  }
}
