/** Continuity bundles: their records, the manifest, the checksum and the validation. */
module Bundles {
  import opened Events
  import opened Outcomes

  // `payload` holds the columns that no operation looks at.
  datatype Doc = Doc(sourceId: string, path: string, version: int, checksum: string,
                     sourceType: string, tier: string, status: string, payload: string)

  datatype Run = Run(runId: string, sourceId: string, startedAt: string, status: string, payload: string)

  datatype SemRun = SemRun(runId: string, startedAt: string, status: string, payload: string)

  datatype Candidate = Candidate(candidateId: string, semRunId: string, index: int, confidence: int,
                                 status: string, promotedId: Option<int>, createdAt: string, payload: string)

  /** Empty and absent fields restrict nothing. */
  datatype ExportFilter = ExportFilter(tags: seq<string>, sourceIds: seq<string>, unresolvedOnly: bool,
                                       since: Option<string>, until: Option<string>)

  /** A workflow reference is carried along and never looked at. */
  datatype Reference = Reference(payload: string)

  /** `schema_version`; anything else, or none, is unsupported. */
  datatype Version = V1_0 | V1_1 | V1_2 | Unsupported

  datatype ManifestKey =
    | BundleId | SchemaVersion | ExportedAt | ExportedBy | Filters
    | SourceCount | MemoryEventCount | IngestionRunCount | WorkflowReferenceCount
    | SemanticRunCount | SemanticCandidateCount
    | ExportedDbSchemaVersion | CompressionExcluded | CompressionExcludedCount | DanglingCompressionCount
    | LineageChecked | LineageAllOk | LineageBrokenCount
    | Checksum
    | OtherKey(name: string)

  datatype Json =
    | Num(n: int) | Text(text: string) | Flag(b: bool) | Null
    | FilterFields(filter: ExportFilter) | NoFields

  type Manifest = map<ManifestKey, Json>

  /** An optional top-level key of the bundle object. */
  datatype Section<T> = Missing | Rows(rows: seq<T>)

  datatype Bundle = Bundle(version: Version, manifest: Manifest,
                           events: Section<Event>, docs: Section<Doc>, runs: Section<Run>,
                           references: Section<Reference>,
                           semRuns: Section<SemRun>, candidates: Section<Candidate>)

  /** `bundle_dict.get(key, [])` */
  function Get<T>(s: Section<T>): seq<T> {
    if s.Missing? then [] else s.rows
  }

  // ---------------------------------------------------------------------------
  // Checksum and validation
  // ---------------------------------------------------------------------------

  datatype Semantic = NotCovered | CoveredBy(semRuns: seq<SemRun>, candidates: seq<Candidate>)

  /** The canonical content the checksum is taken of. */
  datatype Content = Content(version: Version, manifest: Manifest, events: seq<Event>, docs: seq<Doc>,
                             runs: seq<Run>, references: seq<Reference>, semantic: Semantic)

  /** SHA-256 of the canonical JSON, kept abstract. */
  type Digest = Content -> string

  ghost predicate Injective(sha: Digest) {
    forall x, y :: sha(x) == sha(y) ==> x == y
  }

  function Covered(b: Bundle): Content {
    Content(b.version, b.manifest - {Checksum}, Get(b.events), Get(b.docs), Get(b.runs), Get(b.references),
            if b.version in {V1_1, V1_2} then CoveredBy(Get(b.semRuns), Get(b.candidates)) else NotCovered)
  }

  const REQUIRED_1_0: set<ManifestKey> :=
    {BundleId, SchemaVersion, ExportedAt, ExportedBy, SourceCount, MemoryEventCount, IngestionRunCount,
     WorkflowReferenceCount, Checksum}

  const REQUIRED_1_1: set<ManifestKey> := REQUIRED_1_0 + {SemanticRunCount, SemanticCandidateCount}

  const REQUIRED_1_2: set<ManifestKey> :=
    REQUIRED_1_1 + {ExportedDbSchemaVersion, CompressionExcluded, CompressionExcludedCount,
                    DanglingCompressionCount, LineageChecked, LineageAllOk, LineageBrokenCount}

  function Required(v: Version): set<ManifestKey> {
    match v
    case V1_2 => REQUIRED_1_2
    case V1_1 => REQUIRED_1_1
    case _ => REQUIRED_1_0
  }

  predicate Counts<T>(m: Manifest, key: ManifestKey, s: Section<T>) {
    s.Rows? && key in m && m[key] == Num(|s.rows|)
  }

  /** `validate_bundle` returns; otherwise it raises a BundleValidationError. */
  predicate Valid(b: Bundle, sha: Digest) {
    && b.version != Unsupported
    && Required(b.version) <= b.manifest.Keys
    && Counts(b.manifest, MemoryEventCount, b.events)
    && Counts(b.manifest, SourceCount, b.docs)
    && Counts(b.manifest, IngestionRunCount, b.runs)
    && Counts(b.manifest, WorkflowReferenceCount, b.references)
    && (b.version in {V1_1, V1_2} ==>
          && Counts(b.manifest, SemanticRunCount, b.semRuns)
          && Counts(b.manifest, SemanticCandidateCount, b.candidates))
    && b.manifest[Checksum] == Text(sha(Covered(b)))
  }

  ghost predicate Declares<T>(m: Manifest, key: ManifestKey, s: Section<T>) {
    s != Missing && key in m && m[key] == Num(|Get(s)|)
  }

  /** What a bundle must be for an import: a supported schema, the manifest keys of that schema, every
      record section present with its declared length, and the checksum of everything else; the two
      semantic sections count from schema 1.1 on. */
  lemma ValidIff(b: Bundle, sha: Digest)
    ensures Valid(b, sha) <==>
              && b.version in {V1_0, V1_1, V1_2}
              && {BundleId, SchemaVersion, ExportedAt, ExportedBy, Checksum} <= b.manifest.Keys
              && Declares(b.manifest, MemoryEventCount, b.events) && Declares(b.manifest, SourceCount, b.docs)
              && Declares(b.manifest, IngestionRunCount, b.runs)
              && Declares(b.manifest, WorkflowReferenceCount, b.references)
              && (b.version != V1_0 ==>
                    && Declares(b.manifest, SemanticRunCount, b.semRuns)
                    && Declares(b.manifest, SemanticCandidateCount, b.candidates))
              && (b.version == V1_2 ==>
                    {ExportedDbSchemaVersion, CompressionExcluded, CompressionExcludedCount, DanglingCompressionCount,
                     LineageChecked, LineageAllOk, LineageBrokenCount} <= b.manifest.Keys)
              && b.manifest[Checksum] == Text(sha(CheckedContent(b)))
  {
    hide Get;
    SectionsDeclared(b);
    ContentIsChecked(b);
  }

  /** What the checksum is taken of: everything but itself. */
  ghost function CheckedContent(b: Bundle): Content {
    Content(b.version, map k | k in b.manifest && k != Checksum :: b.manifest[k], Get(b.events), Get(b.docs),
            Get(b.runs), Get(b.references),
            match b.version
            case V1_0 => NotCovered
            case V1_1 => CoveredBy(Get(b.semRuns), Get(b.candidates))
            case V1_2 => CoveredBy(Get(b.semRuns), Get(b.candidates))
            case Unsupported => NotCovered)
  }

  lemma ContentIsChecked(b: Bundle)
    ensures CheckedContent(b) == Covered(b)
  {
    assert (map k | k in b.manifest && k != Checksum :: b.manifest[k]) == b.manifest - {Checksum};
  }

  lemma SectionsDeclared(b: Bundle)
    ensures Counts(b.manifest, MemoryEventCount, b.events) <==> Declares(b.manifest, MemoryEventCount, b.events)
    ensures Counts(b.manifest, SourceCount, b.docs) <==> Declares(b.manifest, SourceCount, b.docs)
    ensures Counts(b.manifest, IngestionRunCount, b.runs) <==> Declares(b.manifest, IngestionRunCount, b.runs)
    ensures Counts(b.manifest, WorkflowReferenceCount, b.references)
       <==> Declares(b.manifest, WorkflowReferenceCount, b.references)
    ensures Counts(b.manifest, SemanticRunCount, b.semRuns) <==> Declares(b.manifest, SemanticRunCount, b.semRuns)
    ensures Counts(b.manifest, SemanticCandidateCount, b.candidates)
       <==> Declares(b.manifest, SemanticCandidateCount, b.candidates)
  {
  }

  /** The checksum ignores its own field. */
  lemma ChecksumIgnoresItself(b: Bundle, recorded: Json)
    ensures Covered(b.(manifest := b.manifest[Checksum := recorded])) == Covered(b)
  {
    assert b.manifest[Checksum := recorded] - {Checksum} == b.manifest - {Checksum};
  }

  /** Tampering is detected: under the manifest of a valid bundle, another bundle is valid exactly
      when it has the same version and the same records.  Schema 1.0 does not cover the two
      semantic sections, so there they may be anything. */
  lemma ValidUnderSameManifestIff(b: Bundle, c: Bundle, sha: Digest)
    requires Injective(sha) && Valid(b, sha) && c.manifest == b.manifest
    ensures Valid(c, sha) <==>
              && c.version == b.version
              && c.events == b.events && c.docs == b.docs && c.runs == b.runs && c.references == b.references
              && (b.version == V1_0 || (c.semRuns == b.semRuns && c.candidates == b.candidates))
  {
    hide Required;
    if Valid(c, sha) {
      assert sha(Covered(c)) == sha(Covered(b));
      assert Covered(c) == Covered(b);
      SectionsOfContent(b, c);
    }
  }

  lemma SectionsOfContent(b: Bundle, c: Bundle)
    requires Covered(b) == Covered(c)
    ensures c.version == b.version
    ensures b.events.Rows? && c.events.Rows? ==> b.events == c.events
    ensures b.docs.Rows? && c.docs.Rows? ==> b.docs == c.docs
    ensures b.runs.Rows? && c.runs.Rows? ==> b.runs == c.runs
    ensures b.references.Rows? && c.references.Rows? ==> b.references == c.references
    ensures b.version in {V1_1, V1_2} && b.semRuns.Rows? && c.semRuns.Rows? ==> b.semRuns == c.semRuns
    ensures b.version in {V1_1, V1_2} && b.candidates.Rows? && c.candidates.Rows? ==> b.candidates == c.candidates
  {
  }

  /** Two valid bundles with the same recorded checksum have the same covered content. */
  lemma SameChecksumSameContent(b: Bundle, c: Bundle, sha: Digest)
    requires Injective(sha) && Valid(b, sha) && Valid(c, sha)
    requires b.manifest[Checksum] == c.manifest[Checksum]
    ensures Covered(b) == Covered(c) && b.manifest == c.manifest
  {
    assert Covered(b) == Covered(c);
    assert b.manifest - {Checksum} == c.manifest - {Checksum};
    forall k
      ensures k in b.manifest <==> k in c.manifest
      ensures k in b.manifest && k in c.manifest ==> b.manifest[k] == c.manifest[k]
    {
      if k != Checksum {
        assert k in b.manifest <==> k in b.manifest - {Checksum};
        assert k in c.manifest <==> k in c.manifest - {Checksum};
        if k in b.manifest { assert (b.manifest - {Checksum})[k] == b.manifest[k]; }
        if k in c.manifest { assert (c.manifest - {Checksum})[k] == c.manifest[k]; }
      }
    }
  }
}
