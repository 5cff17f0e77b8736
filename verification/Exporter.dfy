/** Reading a dependency-closed bundle out of the five bundled tables. */
module Exporter {
  import opened Bundles
  import opened Events
  import opened Ordering
  import opened Outcomes
  import opened Tables

  datatype Db = Db(events: map<int, Event>, sequence: int, docs: map<string, Doc>, runs: map<string, Run>,
                   semRuns: map<string, SemRun>, candidates: map<string, Candidate>)

  const EMPTY: Db := Db(map[], 0, map[], map[], map[], map[])

  // ---------------------------------------------------------------------------
  // Table constraints
  // ---------------------------------------------------------------------------

  const EVENT_TYPES: set<string> :=
    {"architecture_decision", "governance_rule", "hypothesis", "experiment", "validation_result", "adaptation",
     "regime_observation", "implementation_note", "open_question", "rejected_idea", "incident", "source_reference"}

  const EVENT_STATUSES: set<string> :=
    {"proposed", "accepted", "rejected", "superseded", "active", "archived", "unresolved", "deprecated"}

  predicate EventOk(e: Event) {
    && e.eventType in EVENT_TYPES && e.title != "" && e.summary != "" && e.source != ""
    && 1 <= e.confidence <= 5 && e.status in EVENT_STATUSES && e.createdBy != ""
  }

  const SOURCE_TYPES: set<string> :=
    {"doctrine", "research_note", "article", "transcript", "implementation_brief", "architecture_doc",
     "external_reference", "unknown"}

  predicate DocOk(d: Doc) {
    && d.sourceType in SOURCE_TYPES
    && d.tier in {"authoritative", "high", "medium", "low", "unknown"}
    && d.status in {"active", "superseded", "deprecated", "rejected", "archived"}
  }

  /** UNIQUE (path, checksum_sha256) */
  predicate SameContent(a: Doc, b: Doc) { a.path == b.path && a.checksum == b.checksum }

  predicate RunOk(r: Run) { r.status in {"candidate_generated", "committed", "failed"} }

  predicate SemRunOk(r: SemRun) { r.status in {"completed", "failed", "partial"} }

  predicate CandidateOk(c: Candidate) {
    c.index >= 0 && 1 <= c.confidence <= 5 && c.status in {"candidate", "promoted", "rejected"}
  }

  const EVENTS: Schema<int, Event> := Schema((e: Event) => e.id, EventOk, (a, b) => false)
  const DOCS: Schema<string, Doc> := Schema((d: Doc) => d.sourceId, DocOk, SameContent)
  const RUNS: Schema<string, Run> := Schema((r: Run) => r.runId, RunOk, (a, b) => false)
  const SEM_RUNS: Schema<string, SemRun> := Schema((r: SemRun) => r.runId, SemRunOk, (a, b) => false)
  const CANDIDATES: Schema<string, Candidate> := Schema((c: Candidate) => c.candidateId, CandidateOk, (a, b) => false)

  /** Every row under its key, every constraint met, and no event id above the id sequence. */
  ghost predicate Sound(db: Db) {
    && WellKept(db.events, EVENTS) && WellKept(db.docs, DOCS) && WellKept(db.runs, RUNS)
    && WellKept(db.semRuns, SEM_RUNS) && WellKept(db.candidates, CANDIDATES)
    && forall id | id in db.events :: id <= db.sequence
  }

  /** What the constraints say of a stored row. */
  lemma StoredRows(db: Db)
    requires Sound(db)
    ensures forall id | id in db.events ::
              var e := db.events[id];
              && e.id == id <= db.sequence && e.title != "" && e.summary != "" && e.source != "" && e.createdBy != ""
              && e.confidence in {1, 2, 3, 4, 5}
    ensures forall id | id in db.docs :: db.docs[id].sourceId == id
    ensures forall k, l | k in db.docs && l in db.docs && k != l ::
              db.docs[k].path != db.docs[l].path || db.docs[k].checksum != db.docs[l].checksum
    ensures forall id | id in db.runs :: db.runs[id].runId == id
    ensures forall id | id in db.semRuns :: db.semRuns[id].runId == id
    ensures forall id | id in db.candidates ::
              var c := db.candidates[id];
              c.candidateId == id && 0 <= c.index && c.confidence in {1, 2, 3, 4, 5}
  {
    hide EVENT_TYPES, EVENT_STATUSES, SOURCE_TYPES;
    assert forall id | id in db.events :: EVENTS.key(db.events[id]) == id && EVENTS.ok(db.events[id]);
    assert forall id | id in db.docs :: DOCS.key(db.docs[id]) == id;
    assert forall k, l | k in db.docs && l in db.docs && k != l :: !DOCS.clash(db.docs[k], db.docs[l]);
    assert forall id | id in db.runs :: RUNS.key(db.runs[id]) == id;
    assert forall id | id in db.semRuns :: SEM_RUNS.key(db.semRuns[id]) == id;
    assert forall id | id in db.candidates ::
      CANDIDATES.key(db.candidates[id]) == id && CANDIDATES.ok(db.candidates[id]);
  }

  // ---------------------------------------------------------------------------
  // Sort orders
  // ---------------------------------------------------------------------------

  predicate EventLe(a: Event, b: Event) { a.id <= b.id }

  /** path, version; rows equal in both are listed by source id. */
  predicate DocLe(a: Doc, b: Doc) {
    if a.path != b.path then TextLe(a.path, b.path)
    else if a.version != b.version then a.version < b.version
    else TextLe(a.sourceId, b.sourceId)
  }

  predicate RunLe(a: Run, b: Run) { TextPairLe((a.startedAt, a.runId), (b.startedAt, b.runId)) }

  predicate SemRunLe(a: SemRun, b: SemRun) { TextPairLe((a.startedAt, a.runId), (b.startedAt, b.runId)) }

  predicate CandidateLe(a: Candidate, b: Candidate) {
    TextPairLe((a.createdAt, a.candidateId), (b.createdAt, b.candidateId))
  }

  /** No two rows of the set have the same key. */
  ghost predicate Keyed<K, V(!new)>(s: set<V>, schema: Schema<K, V>) {
    forall a, b | a in s && b in s && schema.key(a) == schema.key(b) :: a == b
  }

  lemma EventsTotal(s: set<Event>)
    requires Keyed(s, EVENTS)
    ensures TotalOrderOn(s, EventLe)
  {
    forall a, b | a in s && b in s && EventLe(a, b) && EventLe(b, a)
      ensures a == b
    {
      assert EVENTS.key(a) == EVENTS.key(b);
    }
  }

  lemma DocsTotal(s: set<Doc>)
    requires Keyed(s, DOCS)
    ensures TotalOrderOn(s, DocLe)
  {
    hide DOCS, Keyed;
    forall a, b: Doc
      ensures DocLe(a, a) && (DocLe(a, b) || DocLe(b, a))
      ensures a in s && b in s && DocLe(a, b) && DocLe(b, a) ==> a == b
    {
      TextLeReflexive(a.sourceId);
      TextLeTotal(a.path, b.path);
      TextLeTotal(a.sourceId, b.sourceId);
      if TextLe(a.path, b.path) && TextLe(b.path, a.path) { TextLeAntisymmetric(a.path, b.path); }
      if TextLe(a.sourceId, b.sourceId) && TextLe(b.sourceId, a.sourceId) {
        TextLeAntisymmetric(a.sourceId, b.sourceId);
        DocsKeyed(s, a, b);
      }
    }
    forall a, b, c: Doc | DocLe(a, b) && DocLe(b, c)
      ensures DocLe(a, c)
    {
      if TextLe(a.path, b.path) && TextLe(b.path, c.path) {
        TextLeTransitive(a.path, b.path, c.path);
        if a.path == c.path { TextLeAntisymmetric(a.path, b.path); }
      }
      if TextLe(a.sourceId, b.sourceId) && TextLe(b.sourceId, c.sourceId) {
        TextLeTransitive(a.sourceId, b.sourceId, c.sourceId);
      }
    }
  }

  lemma DocsKeyed(s: set<Doc>, a: Doc, b: Doc)
    requires Keyed(s, DOCS)
    ensures a in s && b in s && a.sourceId == b.sourceId ==> a == b
  {
    if a in s && b in s && a.sourceId == b.sourceId { assert DOCS.key(a) == DOCS.key(b); }
  }

  lemma RunsTotal(s: set<Run>)
    requires Keyed(s, RUNS)
    ensures TotalOrderOn(s, RunLe)
  {
    hide TextPairLe;
    TextPairLeTotal(set r | r in s :: (r.startedAt, r.runId));
    forall a, b | a in s && b in s && a.runId == b.runId
      ensures a == b
    {
      assert RUNS.key(a) == RUNS.key(b);
    }
  }

  lemma SemRunsTotal(s: set<SemRun>)
    requires Keyed(s, SEM_RUNS)
    ensures TotalOrderOn(s, SemRunLe)
  {
    hide TextPairLe;
    TextPairLeTotal(set r | r in s :: (r.startedAt, r.runId));
    forall a, b | a in s && b in s && a.runId == b.runId
      ensures a == b
    {
      assert SEM_RUNS.key(a) == SEM_RUNS.key(b);
    }
  }

  lemma CandidatesTotal(s: set<Candidate>)
    requires Keyed(s, CANDIDATES)
    ensures TotalOrderOn(s, CandidateLe)
  {
    hide TextPairLe;
    TextPairLeTotal(set c | c in s :: (c.createdAt, c.candidateId));
    forall a, b | a in s && b in s && a.candidateId == b.candidateId
      ensures a == b
    {
      assert CANDIDATES.key(a) == CANDIDATES.key(b);
    }
  }

  // ---------------------------------------------------------------------------
  // What is selected
  // ---------------------------------------------------------------------------

  /** The paths of the requested source documents. */
  function PathsOf(db: Db, sourceIds: seq<string>): set<string> {
    set k | k in db.docs && k in sourceIds :: db.docs[k].path
  }

  predicate Selected(db: Db, filter: Option<ExportFilter>, e: Event) {
    filter.Some? ==>
      var f := filter.value;
      && (f.unresolvedOnly ==> e.status in {"unresolved", "proposed"})
      && (forall tag | tag in f.tags :: tag in e.tags)
      && (Given(f.since) ==> TextLe(f.since.value, e.createdAt))
      && (Given(f.until) ==> TextLe(e.createdAt, f.until.value))
      && (f.sourceIds != [] ==> e.source in PathsOf(db, f.sourceIds))
  }

  const COMPRESSION_PREFIX := "compression_artifact:"

  predicate FromCompression(e: Event) { COMPRESSION_PREFIX <= e.source }

  /** Proposed events derived from compression are exported only on request. */
  predicate Kept(includeProposed: bool, e: Event) {
    includeProposed || !(FromCompression(e) && e.status == "proposed")
  }

  function SelectedEvents(db: Db, filter: Option<ExportFilter>): set<Event> {
    set id | id in db.events && Selected(db, filter, db.events[id]) :: db.events[id]
  }

  function SourcesOf(events: seq<Event>): set<string> {
    set e | e in events && e.source != "" :: e.source
  }

  function WantedPaths(db: Db, events: seq<Event>, filter: Option<ExportFilter>): set<string> {
    SourcesOf(events) + if filter.Some? then PathsOf(db, filter.value.sourceIds) else {}
  }

  function SelectedDocs(db: Db, paths: set<string>): set<Doc> {
    set k | k in db.docs && db.docs[k].path in paths :: db.docs[k]
  }

  function SelectedRuns(db: Db, docs: seq<Doc>): set<Run> {
    set k, d | k in db.runs && d in docs && db.runs[k].sourceId == d.sourceId :: db.runs[k]
  }

  function SelectedCandidates(db: Db, events: seq<Event>): set<Candidate> {
    set k, e | k in db.candidates && e in events && db.candidates[k].status == "promoted"
               && db.candidates[k].promotedId == Some(e.id) :: db.candidates[k]
  }

  function SelectedSemRuns(db: Db, candidates: seq<Candidate>): set<SemRun> {
    set k, c | k in db.semRuns && c in candidates && k == c.semRunId :: db.semRuns[k]
  }

  // ---------------------------------------------------------------------------
  // The five record sections
  // ---------------------------------------------------------------------------

  datatype Sections = Sections(events: seq<Event>, docs: seq<Doc>, runs: seq<Run>, semRuns: seq<SemRun>,
                               candidates: seq<Candidate>)

  ghost predicate RowsOf<K, V(!new)>(table: map<K, V>, rows: set<V>) {
    forall r | r in rows :: exists k :: k in table && table[k] == r
  }

  lemma RowsAreKeyed<K, V(!new)>(table: map<K, V>, rows: set<V>, schema: Schema<K, V>)
    requires WellKept(table, schema) && RowsOf(table, rows)
    ensures Keyed(rows, schema)
  {
  }

  lemma EventsSortable(db: Db, rows: set<Event>)
    requires Sound(db) && RowsOf(db.events, rows)
    ensures Keyed(rows, EVENTS) && TotalOrderOn(rows, EventLe)
  {
    hide *;
    SoundTables(db);
    RowsAreKeyed(db.events, rows, EVENTS);
    EventsTotal(rows);
  }

  lemma SoundTables(db: Db)
    requires Sound(db)
    ensures WellKept(db.events, EVENTS) && WellKept(db.docs, DOCS) && WellKept(db.runs, RUNS)
    ensures WellKept(db.semRuns, SEM_RUNS) && WellKept(db.candidates, CANDIDATES)
    ensures forall id | id in db.events :: id <= db.sequence
  {
    hide EVENTS, DOCS, RUNS, SEM_RUNS, CANDIDATES;
  }

  function FetchEvents(db: Db, filter: Option<ExportFilter>): seq<Event>
    requires Sound(db)
  {
    EventsSortable(db, SelectedEvents(db, filter));
    SortedBy(SelectedEvents(db, filter), EventLe)
  }

  function KeptEvents(db: Db, filter: Option<ExportFilter>, includeProposed: bool): seq<Event>
    requires Sound(db)
  {
    Filter(FetchEvents(db, filter), e => Kept(includeProposed, e))
  }

  function FetchDocs(db: Db, events: seq<Event>, filter: Option<ExportFilter>): seq<Doc>
    requires Sound(db)
  {
    var rows := SelectedDocs(db, WantedPaths(db, events, filter));
    RowsAreKeyed(db.docs, rows, DOCS);
    DocsTotal(rows);
    SortedBy(rows, DocLe)
  }

  function FetchRuns(db: Db, docs: seq<Doc>): seq<Run>
    requires Sound(db)
  {
    RowsAreKeyed(db.runs, SelectedRuns(db, docs), RUNS);
    RunsTotal(SelectedRuns(db, docs));
    SortedBy(SelectedRuns(db, docs), RunLe)
  }

  function FetchCandidates(db: Db, events: seq<Event>): seq<Candidate>
    requires Sound(db)
  {
    RowsAreKeyed(db.candidates, SelectedCandidates(db, events), CANDIDATES);
    CandidatesTotal(SelectedCandidates(db, events));
    SortedBy(SelectedCandidates(db, events), CandidateLe)
  }

  function FetchSemRuns(db: Db, candidates: seq<Candidate>): seq<SemRun>
    requires Sound(db)
  {
    RowsAreKeyed(db.semRuns, SelectedSemRuns(db, candidates), SEM_RUNS);
    SemRunsTotal(SelectedSemRuns(db, candidates));
    SortedBy(SelectedSemRuns(db, candidates), SemRunLe)
  }

  function Fetch(db: Db, filter: Option<ExportFilter>, includeProposed: bool): Sections
    requires Sound(db)
  {
    var events := KeptEvents(db, filter, includeProposed);
    var docs := FetchDocs(db, events, filter);
    var candidates := FetchCandidates(db, events);
    Sections(events, docs, FetchRuns(db, docs), FetchSemRuns(db, candidates), candidates)
  }

  /** What is in the sections, and nothing else is: the export is closed under the references the
      bundle can follow. */
  lemma ExportIsClosed(db: Db, filter: Option<ExportFilter>, includeProposed: bool)
    requires Sound(db)
    ensures var s := Fetch(db, filter, includeProposed);
            && (forall e :: e in s.events <==>
                  e.id in db.events && db.events[e.id] == e && Selected(db, filter, e) && Kept(includeProposed, e))
            && (forall d :: d in s.docs <==>
                  && d.sourceId in db.docs && db.docs[d.sourceId] == d
                  && d.path in WantedPaths(db, s.events, filter))
            && (forall r :: r in s.runs <==>
                  r.runId in db.runs && db.runs[r.runId] == r && exists d :: d in s.docs && r.sourceId == d.sourceId)
            && (forall c :: c in s.candidates <==>
                  && c.candidateId in db.candidates && db.candidates[c.candidateId] == c && c.status == "promoted"
                  && exists e :: e in s.events && c.promotedId == Some(e.id))
            && (forall r :: r in s.semRuns <==>
                  && r.runId in db.semRuns && db.semRuns[r.runId] == r
                  && exists c :: c in s.candidates && c.semRunId == r.runId)
  {
    hide Sound, Selected, Kept, WantedPaths, WellKept, IsListing, TotalOrderOn;
    SoundTables(db);
    var s := Fetch(db, filter, includeProposed);
    EventSection(db, filter, includeProposed);
    DocSection(db, s.events, filter);
    RunSection(db, s.docs);
    CandidateSection(db, s.events);
    SemRunSection(db, s.candidates);
  }

  /** The event passes every condition the filter sets: all its tags, its status, its creation time within
      the bounds, its source among the paths of the requested documents. */
  ghost predicate PassesFilter(db: Db, f: ExportFilter, e: Event) {
    && (f.unresolvedOnly ==> e.status == "unresolved" || e.status == "proposed")
    && (forall tag | tag in f.tags :: tag in e.tags)
    && (f.since.Some? && f.since.value != "" ==> TextLe(f.since.value, e.createdAt))
    && (f.until.Some? && f.until.value != "" ==> TextLe(e.createdAt, f.until.value))
    && (f.sourceIds != [] ==> IsRequestedPath(db, f, e.source))
  }

  ghost predicate IsRequestedPath(db: Db, f: ExportFilter, path: string) {
    exists k :: k in db.docs && k in f.sourceIds && db.docs[k].path == path
  }

  /** A proposed event made from a compression artifact. */
  ghost predicate IsProposedCompression(e: Event) {
    "compression_artifact:" <= e.source && e.status == "proposed"
  }

  ghost predicate IsExportedEvent(db: Db, filter: Option<ExportFilter>, includeProposed: bool, e: Event) {
    && e.id in db.events && db.events[e.id] == e
    && (filter.Some? ==> PassesFilter(db, filter.value, e))
    && (includeProposed || !IsProposedCompression(e))
  }

  /** Which events and documents are exported, said of the rows. */
  lemma ExportedRows(db: Db, filter: Option<ExportFilter>, includeProposed: bool)
    requires Sound(db)
    ensures var s := Fetch(db, filter, includeProposed);
            && (forall e :: e in s.events <==> IsExportedEvent(db, filter, includeProposed, e))
            && (forall d :: d in s.docs <==>
                  && d.sourceId in db.docs && db.docs[d.sourceId] == d
                  && ((exists e :: e in s.events && e.source == d.path && e.source != "")
                      || (filter.Some? && IsRequestedPath(db, filter.value, d.path))))
  {
    hide Sound, Fetch, Selected, Kept, WantedPaths, IsExportedEvent;
    ExportIsClosed(db, filter, includeProposed);
    var s := Fetch(db, filter, includeProposed);
    forall e
      ensures e in s.events <==> IsExportedEvent(db, filter, includeProposed, e)
    {
      SelectedIff(db, filter, includeProposed, e);
    }
    forall path
      ensures path in WantedPaths(db, s.events, filter) <==>
                || (exists e :: e in s.events && e.source == path && e.source != "")
                || (filter.Some? && IsRequestedPath(db, filter.value, path))
    {
      WantedIff(db, s.events, filter, path);
    }
  }

  lemma SelectedIff(db: Db, filter: Option<ExportFilter>, includeProposed: bool, e: Event)
    ensures IsExportedEvent(db, filter, includeProposed, e) <==>
              e.id in db.events && db.events[e.id] == e && Selected(db, filter, e) && Kept(includeProposed, e)
  {
    hide TextLe;
  }

  lemma WantedIff(db: Db, events: seq<Event>, filter: Option<ExportFilter>, path: string)
    ensures path in WantedPaths(db, events, filter) <==>
              || (exists e :: e in events && e.source == path && e.source != "")
              || (filter.Some? && IsRequestedPath(db, filter.value, path))
  {
  }

  /** In which order the five sections list their rows. */
  lemma SectionsInOrder(db: Db, filter: Option<ExportFilter>, includeProposed: bool, i: nat, j: nat)
    requires Sound(db) && i < j
    ensures var s := Fetch(db, filter, includeProposed);
            && (j < |s.events| ==> s.events[i].id < s.events[j].id)
            && (j < |s.docs| ==>
                  if s.docs[i].path != s.docs[j].path then TextLe(s.docs[i].path, s.docs[j].path)
                  else s.docs[i].version <= s.docs[j].version)
            && (j < |s.runs| ==>
                  if s.runs[i].startedAt != s.runs[j].startedAt then TextLe(s.runs[i].startedAt, s.runs[j].startedAt)
                  else TextLe(s.runs[i].runId, s.runs[j].runId))
            && (j < |s.semRuns| ==>
                  if s.semRuns[i].startedAt != s.semRuns[j].startedAt
                  then TextLe(s.semRuns[i].startedAt, s.semRuns[j].startedAt)
                  else TextLe(s.semRuns[i].runId, s.semRuns[j].runId))
            && (j < |s.candidates| ==>
                  if s.candidates[i].createdAt != s.candidates[j].createdAt
                  then TextLe(s.candidates[i].createdAt, s.candidates[j].createdAt)
                  else TextLe(s.candidates[i].candidateId, s.candidates[j].candidateId))
  {
    hide Sound, KeptSet, KeptEvents, FetchDocs, FetchRuns, FetchSemRuns, FetchCandidates, TextLe, TotalOrderOn,
         SelectedDocs, SelectedRuns, SelectedSemRuns, SelectedCandidates;
    var s := Fetch(db, filter, includeProposed);
    KeptListing(db, filter, includeProposed);
    DocsListed(db, s.events, filter);
    RunsListed(db, s.docs);
    CandidatesListed(db, s.events);
    SemRunsListed(db, s.candidates);
    if j < |s.events| {
      ExportIsClosed(db, filter, includeProposed);
      assert s.events[i] in s.events && s.events[j] in s.events;
    }
  }

  function KeptSet(db: Db, filter: Option<ExportFilter>, includeProposed: bool): set<Event> {
    set e | e in SelectedEvents(db, filter) && Kept(includeProposed, e)
  }

  lemma KeptListing(db: Db, filter: Option<ExportFilter>, includeProposed: bool)
    requires Sound(db)
    ensures IsListing(KeptEvents(db, filter, includeProposed), KeptSet(db, filter, includeProposed), EventLe)
  {
    hide Sound, Selected, Kept, SelectedEvents, IsListing, TotalOrderOn;
    var keep := (e: Event) => Kept(includeProposed, e);
    var selected := SelectedEvents(db, filter);
    FilterListing(FetchEvents(db, filter), selected, EventLe, keep);
    assert Chosen(selected, keep) == KeptSet(db, filter, includeProposed);
  }

  lemma EventSection(db: Db, filter: Option<ExportFilter>, includeProposed: bool)
    requires Sound(db)
    ensures forall e :: e in KeptEvents(db, filter, includeProposed) <==>
              e.id in db.events && db.events[e.id] == e && Selected(db, filter, e) && Kept(includeProposed, e)
  {
    hide Sound, Selected, Kept, KeptEvents, KeptSet;
    KeptListing(db, filter, includeProposed);
    forall e
      ensures e in KeptSet(db, filter, includeProposed) <==>
                e.id in db.events && db.events[e.id] == e && Selected(db, filter, e) && Kept(includeProposed, e)
    {
      KeptSetIff(db, filter, includeProposed, e);
    }
  }

  lemma KeptSetIff(db: Db, filter: Option<ExportFilter>, includeProposed: bool, e: Event)
    requires Sound(db)
    ensures e in KeptSet(db, filter, includeProposed) <==>
              e.id in db.events && db.events[e.id] == e && Selected(db, filter, e) && Kept(includeProposed, e)
  {
    hide Selected, Kept, EventOk;
    assert forall id | id in db.events :: EVENTS.key(db.events[id]) == id;
  }

  lemma DocSection(db: Db, events: seq<Event>, filter: Option<ExportFilter>)
    requires Sound(db)
    ensures forall d :: d in FetchDocs(db, events, filter) <==>
              d.sourceId in db.docs && db.docs[d.sourceId] == d && d.path in WantedPaths(db, events, filter)
  {
    hide WantedPaths;
    assert forall id | id in db.docs :: DOCS.key(db.docs[id]) == id;
  }

  lemma RunSection(db: Db, docs: seq<Doc>)
    requires Sound(db)
    ensures forall r :: r in FetchRuns(db, docs) <==>
              r.runId in db.runs && db.runs[r.runId] == r && exists d :: d in docs && r.sourceId == d.sourceId
  {
    assert forall id | id in db.runs :: RUNS.key(db.runs[id]) == id;
  }

  lemma CandidateSection(db: Db, events: seq<Event>)
    requires Sound(db)
    ensures forall c :: c in FetchCandidates(db, events) <==>
              && c.candidateId in db.candidates && db.candidates[c.candidateId] == c && c.status == "promoted"
              && exists e :: e in events && c.promotedId == Some(e.id)
  {
    assert forall id | id in db.candidates :: CANDIDATES.key(db.candidates[id]) == id;
  }

  lemma SemRunSection(db: Db, candidates: seq<Candidate>)
    requires Sound(db)
    ensures forall r :: r in FetchSemRuns(db, candidates) <==>
              r.runId in db.semRuns && db.semRuns[r.runId] == r && exists c :: c in candidates && c.semRunId == r.runId
  {
    assert forall id | id in db.semRuns :: SEM_RUNS.key(db.semRuns[id]) == id;
  }

  lemma DocsListed(db: Db, events: seq<Event>, filter: Option<ExportFilter>)
    requires Sound(db)
    ensures var rows := SelectedDocs(db, WantedPaths(db, events, filter));
            TotalOrderOn(rows, DocLe) && IsListing(FetchDocs(db, events, filter), rows, DocLe)
  {
    hide WantedPaths, IsListing, DocLe, DocOk;
    var rows := SelectedDocs(db, WantedPaths(db, events, filter));
    RowsAreKeyed(db.docs, rows, DOCS);
    DocsTotal(rows);
  }

  lemma RunsListed(db: Db, docs: seq<Doc>)
    requires Sound(db)
    ensures TotalOrderOn(SelectedRuns(db, docs), RunLe) && IsListing(FetchRuns(db, docs), SelectedRuns(db, docs), RunLe)
  {
    hide IsListing, RunLe, RunOk;
    RowsAreKeyed(db.runs, SelectedRuns(db, docs), RUNS);
    RunsTotal(SelectedRuns(db, docs));
  }

  lemma CandidatesListed(db: Db, events: seq<Event>)
    requires Sound(db)
    ensures TotalOrderOn(SelectedCandidates(db, events), CandidateLe)
    ensures IsListing(FetchCandidates(db, events), SelectedCandidates(db, events), CandidateLe)
  {
    hide IsListing, CandidateLe, CandidateOk;
    RowsAreKeyed(db.candidates, SelectedCandidates(db, events), CANDIDATES);
    CandidatesTotal(SelectedCandidates(db, events));
  }

  lemma SemRunsListed(db: Db, candidates: seq<Candidate>)
    requires Sound(db)
    ensures TotalOrderOn(SelectedSemRuns(db, candidates), SemRunLe)
    ensures IsListing(FetchSemRuns(db, candidates), SelectedSemRuns(db, candidates), SemRunLe)
  {
    hide IsListing, SemRunLe, SemRunOk;
    RowsAreKeyed(db.semRuns, SelectedSemRuns(db, candidates), SEM_RUNS);
    SemRunsTotal(SelectedSemRuns(db, candidates));
  }

  // ---------------------------------------------------------------------------
  // The bundle
  // ---------------------------------------------------------------------------

  /** What the caller and the environment contribute: time and actor, the digest behind `bundle_id`,
      the database's schema version, the workflow references, and the lineage check's answer. */
  datatype Stamp = Stamp(at: string, actor: string, idOf: (string, seq<int>) -> string, schemaVersion: Option<int>,
                         references: seq<Reference>, lineage: Option<(bool, int)>)

  function Ids(events: seq<Event>): seq<int> {
    seq(|events|, i requires 0 <= i < |events| => events[i].id)
  }

  function BuildManifest(s: Sections, excluded: Option<int>, filter: Option<ExportFilter>, stamp: Stamp): Manifest {
    map[BundleId := Text(stamp.idOf(stamp.at, Ids(s.events))),
        SchemaVersion := Text("1.2"),
        ExportedAt := Text(stamp.at),
        ExportedBy := Text(stamp.actor),
        Filters := if filter.Some? then FilterFields(filter.value) else NoFields,
        SourceCount := Num(|s.docs|),
        MemoryEventCount := Num(|s.events|),
        IngestionRunCount := Num(|s.runs|),
        WorkflowReferenceCount := Num(|stamp.references|),
        SemanticRunCount := Num(|s.semRuns|),
        SemanticCandidateCount := Num(|s.candidates|),
        ExportedDbSchemaVersion := if stamp.schemaVersion.Some? then Num(stamp.schemaVersion.value) else Null,
        CompressionExcluded := Flag(excluded.Some?),
        CompressionExcludedCount := Num(if excluded.Some? then excluded.value else 0),
        DanglingCompressionCount := Num(|Filter(s.events, FromCompression)|),
        LineageChecked := Flag(stamp.lineage.Some?),
        LineageAllOk := if stamp.lineage.Some? then Flag(stamp.lineage.value.0) else Null,
        LineageBrokenCount := Num(if stamp.lineage.Some? then stamp.lineage.value.1 else 0),
        Checksum := Text("")]
  }

  function WithChecksum(b: Bundle, sha: Digest): Bundle {
    b.(manifest := b.manifest[Checksum := Text(sha(Covered(b)))])
  }

  function Bundled(s: Sections, manifest: Manifest, references: seq<Reference>): Bundle {
    Bundle(V1_2, manifest, Rows(s.events), Rows(s.docs), Rows(s.runs), Rows(references),
           Rows(s.semRuns), Rows(s.candidates))
  }

  /** `export_bundle` */
  function Export(db: Db, filter: Option<ExportFilter>, includeProposed: bool, stamp: Stamp, sha: Digest): Bundle
    requires Sound(db)
  {
    var s := Fetch(db, filter, includeProposed);
    var excluded := if includeProposed then None else Some(|FetchEvents(db, filter)| - |s.events|);
    WithChecksum(Bundled(s, BuildManifest(s, excluded, filter, stamp), stamp.references), sha)
  }

  lemma ManifestHasKeys(s: Sections, excluded: Option<int>, filter: Option<ExportFilter>, stamp: Stamp)
    ensures Required(V1_2) <= BuildManifest(s, excluded, filter, stamp).Keys
  {
    hide Filter, FromCompression, Ids;
    var keys := BuildManifest(s, excluded, filter, stamp).Keys;
    assert REQUIRED_1_0 <= keys;
    assert REQUIRED_1_1 <= keys;
  }

  lemma ManifestCounts(s: Sections, excluded: Option<int>, filter: Option<ExportFilter>, stamp: Stamp)
    ensures HasCounts(Bundled(s, BuildManifest(s, excluded, filter, stamp), stamp.references))
  {
    hide Filter, FromCompression, Ids, Required;
    ManifestHasKeys(s, excluded, filter, stamp);
  }

  ghost predicate HasCounts(b: Bundle) {
    && Required(V1_2) <= b.manifest.Keys
    && Counts(b.manifest, MemoryEventCount, b.events) && Counts(b.manifest, SourceCount, b.docs)
    && Counts(b.manifest, IngestionRunCount, b.runs)
    && Counts(b.manifest, WorkflowReferenceCount, b.references)
    && Counts(b.manifest, SemanticRunCount, b.semRuns)
    && Counts(b.manifest, SemanticCandidateCount, b.candidates)
  }

  lemma ChecksummedBundleIsValid(b: Bundle, sha: Digest)
    requires b.version == V1_2 && HasCounts(b)
    ensures Valid(WithChecksum(b, sha), sha)
  {
    hide Required;
    ChecksumIgnoresItself(b, Text(sha(Covered(b))));
  }

  /** Every exported bundle passes the importer's validation. */
  lemma ExportIsValid(db: Db, filter: Option<ExportFilter>, includeProposed: bool, stamp: Stamp, sha: Digest)
    requires Sound(db)
    ensures Valid(Export(db, filter, includeProposed, stamp, sha), sha)
  {
    hide Sound, Fetch, FetchEvents, BuildManifest, Valid, WithChecksum, Required, HasCounts;
    var s := Fetch(db, filter, includeProposed);
    var excluded := if includeProposed then None else Some(|FetchEvents(db, filter)| - |s.events|);
    ManifestCounts(s, excluded, filter, stamp);
    ChecksummedBundleIsValid(Bundled(s, BuildManifest(s, excluded, filter, stamp), stamp.references), sha);
  }

  /** The proposed compression events that the filter selects. */
  ghost function LeftOut(db: Db, filter: Option<ExportFilter>): set<Event> {
    set id | id in db.events && (filter.Some? ==> PassesFilter(db, filter.value, db.events[id]))
             && IsProposedCompression(db.events[id]) :: db.events[id]
  }

  /** The exported events that point at compression artifacts, which are never in the bundle. */
  ghost function DanglingSources(events: seq<Event>): set<nat> {
    set i: nat | i < |events| && "compression_artifact:" <= events[i].source
  }

  /** What the manifest of an export declares. */
  lemma ExportedManifest(db: Db, filter: Option<ExportFilter>, includeProposed: bool, stamp: Stamp, sha: Digest)
    requires Sound(db)
    ensures var b, s := Export(db, filter, includeProposed, stamp, sha), Fetch(db, filter, includeProposed);
            var m := b.manifest;
            && b.version == V1_2 && {SchemaVersion, CompressionExcluded, CompressionExcludedCount,
                                     DanglingCompressionCount, ExportedBy, Filters, Checksum} <= m.Keys
            && m[SchemaVersion] == Text("1.2") && m[ExportedBy] == Text(stamp.actor)
            && m[Filters] == (if filter.Some? then FilterFields(filter.value) else NoFields)
            && m[CompressionExcluded] == Flag(!includeProposed)
            && m[CompressionExcludedCount] == Num(if includeProposed then 0 else |LeftOut(db, filter)|)
            && m[DanglingCompressionCount] == Num(|DanglingSources(s.events)|)
            && {BundleId, ExportedAt, ExportedDbSchemaVersion, LineageChecked, LineageAllOk, LineageBrokenCount}
                 <= m.Keys
            && m[BundleId] == Text(stamp.idOf(stamp.at, Ids(s.events))) && m[ExportedAt] == Text(stamp.at)
            && m[ExportedDbSchemaVersion] == (match stamp.schemaVersion
                                              case Some(v) => Num(v)
                                              case None => Null)
            && (m[LineageChecked], m[LineageAllOk], m[LineageBrokenCount])
                 == (match stamp.lineage
                     case Some((ok, broken)) => (Flag(true), Flag(ok), Num(broken))
                     case None => (Flag(false), Null, Num(0)))
            && m[Checksum] == Text(sha(Covered(b)))
  {
    hide Sound, Fetch, FetchEvents, KeptEvents, LeftOut, DanglingSources, BuildManifest, Covered, Filter;
    var s := Fetch(db, filter, includeProposed);
    LeftOutCount(db, filter, includeProposed);
    DanglingCount(s.events);
    var excluded := if includeProposed then None else Some(|FetchEvents(db, filter)| - |s.events|);
    ManifestDeclares(s, excluded, filter, stamp);
    ManifestCarries(s, excluded, filter, stamp);
    var b := Bundled(s, BuildManifest(s, excluded, filter, stamp), stamp.references);
    ChecksumIgnoresItself(b, Text(sha(Covered(b))));
  }

  lemma ManifestDeclares(s: Sections, excluded: Option<int>, filter: Option<ExportFilter>, stamp: Stamp)
    ensures var m := BuildManifest(s, excluded, filter, stamp);
            && {SchemaVersion, CompressionExcluded, CompressionExcludedCount, DanglingCompressionCount, ExportedBy,
                Filters} <= m.Keys
            && m[SchemaVersion] == Text("1.2") && m[ExportedBy] == Text(stamp.actor)
            && m[Filters] == (if filter.Some? then FilterFields(filter.value) else NoFields)
            && m[CompressionExcluded] == Flag(excluded.Some?)
            && m[CompressionExcludedCount] == Num(if excluded.Some? then excluded.value else 0)
            && m[DanglingCompressionCount] == Num(|Filter(s.events, FromCompression)|)
  {
    hide Filter, FromCompression, Ids;
  }

  lemma ManifestCarries(s: Sections, excluded: Option<int>, filter: Option<ExportFilter>, stamp: Stamp)
    ensures var m := BuildManifest(s, excluded, filter, stamp);
            && {BundleId, ExportedAt, ExportedDbSchemaVersion, LineageChecked, LineageAllOk, LineageBrokenCount}
                 <= m.Keys
            && m[BundleId] == Text(stamp.idOf(stamp.at, Ids(s.events))) && m[ExportedAt] == Text(stamp.at)
            && m[ExportedDbSchemaVersion] == (match stamp.schemaVersion
                                              case Some(v) => Num(v)
                                              case None => Null)
            && (m[LineageChecked], m[LineageAllOk], m[LineageBrokenCount])
                 == (match stamp.lineage
                     case Some((ok, broken)) => (Flag(true), Flag(ok), Num(broken))
                     case None => (Flag(false), Null, Num(0)))
  {
    hide Filter, FromCompression, Ids;
  }

  lemma LeftOutCount(db: Db, filter: Option<ExportFilter>, includeProposed: bool)
    requires Sound(db)
    ensures !includeProposed ==>
              |FetchEvents(db, filter)| - |Fetch(db, filter, includeProposed).events| == |LeftOut(db, filter)|
  {
    hide Sound, Selected, TotalOrderOn, FetchDocs, FetchRuns, FetchCandidates, FetchSemRuns, PassesFilter, FetchEvents,
         KeptEvents;
    if !includeProposed {
      FetchedSize(db, filter);
      KeptListing(db, filter, includeProposed);
      var all, kept := SelectedEvents(db, filter), KeptSet(db, filter, includeProposed);
      forall e
        ensures e in LeftOut(db, filter) <==> e in all - kept
      {
        forall id | id in db.events
          ensures Selected(db, filter, db.events[id])
             <==> (filter.Some? ==> PassesFilter(db, filter.value, db.events[id]))
        {
          FilterIff(db, filter, db.events[id]);
        }
      }
      assert LeftOut(db, filter) == all - kept && kept <= all;
      SizeOfRest(all, kept);
    }
  }

  lemma SizeOfRest<T>(all: set<T>, part: set<T>)
    requires part <= all
    ensures |all - part| == |all| - |part|
  {
    assert all == part + (all - part);
  }

  lemma FilterIff(db: Db, filter: Option<ExportFilter>, e: Event)
    ensures Selected(db, filter, e) <==> (filter.Some? ==> PassesFilter(db, filter.value, e))
  {
    hide TextLe;
  }

  lemma FetchedSize(db: Db, filter: Option<ExportFilter>)
    requires Sound(db)
    ensures |FetchEvents(db, filter)| == |SelectedEvents(db, filter)|
  {
    hide Selected, Sound, TotalOrderOn;
    EventsSortable(db, SelectedEvents(db, filter));
  }

  lemma {:induction false} DanglingCount(events: seq<Event>)
    ensures |Filter(events, FromCompression)| == |DanglingSources(events)|
  {
    hide Filter, FromCompression, DanglingSources;
    if events == [] {
      NoneDangling(events);
    } else {
      var before, last := events[..|events| - 1], events[|events| - 1];
      assert events == before + [last];
      DanglingCount(before);
      FilterSnoc(before, last, FromCompression);
      DanglingSnoc(before, last);
    }
  }

  lemma NoneDangling(events: seq<Event>)
    requires events == []
    ensures Filter(events, FromCompression) == [] && DanglingSources(events) == {}
  {
  }

  lemma DanglingSnoc(events: seq<Event>, e: Event)
    ensures |events| !in DanglingSources(events)
    ensures DanglingSources(events + [e]) == DanglingSources(events) + if FromCompression(e) then {|events|} else {}
  {
    assert forall i | 0 <= i < |events| :: (events + [e])[i] == events[i];
  }

  function SectionsOf(b: Bundle): Sections {
    Sections(Get(b.events), Get(b.docs), Get(b.runs), Get(b.semRuns), Get(b.candidates))
  }

  lemma ExportedSections(db: Db, filter: Option<ExportFilter>, includeProposed: bool, stamp: Stamp, sha: Digest)
    requires Sound(db)
    ensures SectionsOf(Export(db, filter, includeProposed, stamp, sha)) == Fetch(db, filter, includeProposed)
  {
    hide Sound, Fetch, FetchEvents, BuildManifest;
  }
}
