/** Deterministic retrieval: candidates, one-hop expansion, ranking, paging. */
module Retrieval {
  import opened Events
  import opened Ordering
  import opened Outcomes

  datatype Link = Link(source: int, target: int)

  datatype Db = Db(events: map<int, Event>, links: seq<Link>)

  ghost predicate WellKeyed(db: Db) {
    forall id | id in db.events :: db.events[id].id == id
  }

  /** What a query selects; how much of the ranking it asks for is `limit` and `offset`. */
  datatype Criteria = Criteria(tags: seq<string>, eventTypes: seq<string>, statuses: seq<string>,
                               minConfidence: int, expandRelated: bool)

  datatype Query = Query(criteria: Criteria, limit: int, offset: int)

  datatype Scored = Scored(event: Event, tagOverlap: nat, recencyRank: nat, isExpanded: bool, semanticRank: nat,
                           effectiveConfidence: int)

  // ---------------------------------------------------------------------------
  // The composite key
  // ---------------------------------------------------------------------------

  function DoctrineRank(eventType: string): int {
    match eventType
    case "governance_rule" => 1
    case "architecture_decision" => 2
    case "validation_result" => 3
    case "adaptation" => 4
    case "hypothesis" => 5
    case "implementation_note" => 6
    case _ => 7
  }

  /** Tuples of integers compare lexicographically. */
  predicate LexLe(a: seq<int>, b: seq<int>)
    requires |a| == |b|
  {
    a == [] || a[0] < b[0] || (a[0] == b[0] && LexLe(a[1..], b[1..]))
  }

  lemma {:induction false} LexLeReflexive(a: seq<int>)
    ensures LexLe(a, a)
  {
    if a != [] { LexLeReflexive(a[1..]); }
  }

  lemma {:induction false} LexLeTotal(a: seq<int>, b: seq<int>)
    requires |a| == |b|
    ensures LexLe(a, b) || LexLe(b, a)
  {
    if a != [] { LexLeTotal(a[1..], b[1..]); }
  }

  lemma {:induction false} LexLeAntisymmetric(a: seq<int>, b: seq<int>)
    requires |a| == |b| && LexLe(a, b) && LexLe(b, a)
    ensures a == b
  {
    if a != [] {
      LexLeAntisymmetric(a[1..], b[1..]);
      assert a == [a[0]] + a[1..] && b == [b[0]] + b[1..];
    }
  }

  lemma {:induction false} LexLeTransitive(a: seq<int>, b: seq<int>, c: seq<int>)
    requires |a| == |b| == |c| && LexLe(a, b) && LexLe(b, c)
    ensures LexLe(a, c)
  {
    if a != [] && a[0] == b[0] == c[0] { LexLeTransitive(a[1..], b[1..], c[1..]); }
  }

  lemma {:induction false} LexLePrefix(a: seq<int>, b: seq<int>, k: nat)
    requires |a| == |b| && k <= |a| && LexLe(a, b)
    ensures LexLe(a[..k], b[..k])
  {
    if k > 0 && a[0] == b[0] {
      LexLePrefix(a[1..], b[1..], k - 1);
      assert a[..k][1..] == a[1..][..k - 1] && b[..k][1..] == b[1..][..k - 1];
    }
  }

  function CompositeKey(s: Scored): (key: seq<int>)
    ensures |key| == 7
  {
    [if s.isExpanded then 1 else 0, DoctrineRank(s.event.eventType), -s.effectiveConfidence,
     s.semanticRank, s.recencyRank, 0 - s.tagOverlap, s.event.id]
  }

  predicate RanksBefore(a: Scored, b: Scored) { LexLe(CompositeKey(a), CompositeKey(b)) }

  /** No two entries stand for the same event. */
  ghost predicate IdsUnique(s: set<Scored>) {
    forall a, b | a in s && b in s && a.event.id == b.event.id :: a == b
  }

  lemma RankingIsTotal(s: set<Scored>)
    requires IdsUnique(s)
    ensures TotalOrderOn(s, RanksBefore)
  {
    hide LexLe, CompositeKey;
    forall a, b: Scored
      ensures RanksBefore(a, a) && (RanksBefore(a, b) || RanksBefore(b, a))
      ensures RanksBefore(a, b) && RanksBefore(b, a) ==> a.event.id == b.event.id
    {
      LexLeReflexive(CompositeKey(a));
      LexLeTotal(CompositeKey(a), CompositeKey(b));
      if RanksBefore(a, b) && RanksBefore(b, a) {
        LexLeAntisymmetric(CompositeKey(a), CompositeKey(b));
        KeyEndsInId(a);
        KeyEndsInId(b);
      }
    }
    forall a, b, c: Scored | RanksBefore(a, b) && RanksBefore(b, c)
      ensures RanksBefore(a, c)
    {
      LexLeTransitive(CompositeKey(a), CompositeKey(b), CompositeKey(c));
    }
  }

  lemma KeyEndsInId(s: Scored)
    ensures CompositeKey(s)[6] == s.event.id
  {
    hide DoctrineRank;
  }

  // ---------------------------------------------------------------------------
  // Candidates and their neighbours
  // ---------------------------------------------------------------------------

  predicate Matches(c: Criteria, e: Event) {
    && (c.eventTypes != [] ==> e.eventType in c.eventTypes)
    && (c.statuses != [] ==> e.status in c.statuses)
    && (c.minConfidence > 1 ==> e.confidence >= c.minConfidence)
    && (c.tags != [] ==> exists tag | tag in c.tags :: tag in e.tags)
  }

  function PrimaryIds(db: Db, c: Criteria): set<int> {
    set id | id in db.events && Matches(c, db.events[id])
  }

  /** Links with an end among `ids`. */
  predicate Touches(l: Link, ids: set<int>) { l.source in ids || l.target in ids }

  /** Everything one hop away from `ids`, by `related_ids` or by a link in either direction. */
  function OneHop(db: Db, ids: set<int>): set<int> {
    (set id, rid | id in ids && id in db.events && rid in db.events[id].relatedIds :: rid)
    + LinkEnds(db.links, ids)
  }

  function LinkEnds(links: seq<Link>, ids: set<int>): set<int> {
    (set l | l in links && Touches(l, ids) :: l.source) + (set l | l in links && Touches(l, ids) :: l.target)
  }

  /** The ids whose links are looked up: with no primary event the query falls back to id 0. */
  function LinkAnchors(ids: set<int>): set<int> {
    if ids == {} then {0} else ids
  }

  function ExpandedIds(db: Db, ids: set<int>): set<int> {
    set id | id in (if ids == {} then LinkEnds(db.links, {0}) else OneHop(db, ids)) && id !in ids && id in db.events
  }

  /** The expansion is exactly the existing one-hop neighbours outside the primary events, unless there
      is no primary event and a link at event 0 has an existing end. */
  lemma ExpansionIsOneHopIff(db: Db, ids: set<int>)
    requires ids <= db.events.Keys
    ensures ExpandedIds(db, ids) == OneHop(db, ids) * db.events.Keys - ids
       <==> ids != {} || forall l | l in db.links && Touches(l, {0}) :: l.source !in db.events && l.target !in db.events
  {
    if ids == {} {
      assert OneHop(db, ids) == {};
      forall l | l in db.links && Touches(l, {0})
        ensures l.source in LinkEnds(db.links, {0}) && l.target in LinkEnds(db.links, {0})
      {
      }
      if l :| l in db.links && Touches(l, {0}) && (l.source in db.events || l.target in db.events) {
        assert l.source in ExpandedIds(db, ids) || l.target in ExpandedIds(db, ids);
      }
    }
  }

  /** A query that selects nothing and still returns events: one for a type that no event has, in a
      database where an event with id 0, which an import may have brought, is linked to another. */
  lemma EmptyQueryExpandsEventZero(zero: Event, other: Event, eventType: string)
    requires zero.id == 0 && zero.eventType != eventType && other.eventType != eventType
    ensures var db := Db(map[0 := zero, other.id := other], [Link(0, other.id)]);
            var ids := PrimaryIds(db, Criteria([], [eventType], [], 1, true));
            ids == {} && OneHop(db, ids) == {} && ExpandedIds(db, ids) == {0, other.id}
  {
    var db := Db(map[0 := zero, other.id := other], [Link(0, other.id)]);
    var l := db.links[0];
    assert l in db.links && Touches(l, {0});
    assert l.source in LinkEnds(db.links, {0}) && l.target in LinkEnds(db.links, {0});
  }

  // ---------------------------------------------------------------------------
  // Scoring
  // ---------------------------------------------------------------------------

  function IndexIn<T(==)>(s: seq<T>, x: T): (i: nat)
    requires x in s
    ensures i < |s| && s[i] == x
  {
    if s[0] == x then 0 else 1 + IndexIn(s[1..], x)
  }

  lemma IndexInDistinct<T>(s: seq<T>, i: nat)
    requires Distinct(s) && i < |s|
    ensures IndexIn(s, s[i]) == i
  {
  }

  /** updated_at descending, then id descending */
  predicate MoreRecent(a: Event, b: Event) {
    if a.updatedAt == b.updatedAt then a.id >= b.id else TextLe(b.updatedAt, a.updatedAt)
  }

  ghost predicate EventIdsUnique(s: set<Event>) {
    forall a, b | a in s && b in s && a.id == b.id :: a == b
  }

  lemma RecencyIsTotal(s: set<Event>)
    requires EventIdsUnique(s)
    ensures TotalOrderOn(s, MoreRecent)
  {
    forall a, b: Event
      ensures MoreRecent(a, a) && (MoreRecent(a, b) || MoreRecent(b, a))
      ensures MoreRecent(a, b) && MoreRecent(b, a) ==> a.id == b.id
    {
      TextLeTotal(a.updatedAt, b.updatedAt);
      if TextLe(a.updatedAt, b.updatedAt) && TextLe(b.updatedAt, a.updatedAt) {
        TextLeAntisymmetric(a.updatedAt, b.updatedAt);
      }
    }
    forall a, b, c: Event | MoreRecent(a, b) && MoreRecent(b, c)
      ensures MoreRecent(a, c)
    {
      if TextLe(b.updatedAt, a.updatedAt) && TextLe(c.updatedAt, b.updatedAt) {
        TextLeTransitive(c.updatedAt, b.updatedAt, a.updatedAt);
        if a.updatedAt == c.updatedAt { TextLeAntisymmetric(a.updatedAt, b.updatedAt); }
      }
    }
  }

  function EventsAt(db: Db, ids: set<int>): (r: set<Event>)
    requires ids <= db.events.Keys
  {
    set id | id in ids :: db.events[id]
  }

  function ByRecency(group: set<Event>): seq<Event>
    requires EventIdsUnique(group)
  {
    RecencyIsTotal(group);
    SortedBy(group, MoreRecent)
  }

  function Overlap(tags: seq<string>, wanted: seq<string>): nat {
    |Elements(tags) * Elements(wanted)|
  }

  function Score(e: Event, group: set<Event>, wanted: seq<string>, isExpanded: bool): Scored
    requires EventIdsUnique(group) && e in group
  {
    Scored(e, Overlap(e.tags, wanted), IndexIn(ByRecency(group), e), isExpanded, 0, e.confidence)
  }

  function ScoredGroup(group: set<Event>, wanted: seq<string>, isExpanded: bool): set<Scored>
    requires EventIdsUnique(group)
  {
    set e | e in group :: Score(e, group, wanted, isExpanded)
  }

  predicate IdLe(a: Event, b: Event) { a.id <= b.id }

  /** `WHERE id IN ids ORDER BY id` */
  function FetchEvents(db: Db, ids: set<int>): (r: seq<Event>)
    requires WellKeyed(db) && ids <= db.events.Keys
    ensures EventIdsUnique(EventsAt(db, ids)) && IsListing(r, EventsAt(db, ids), IdLe)
  {
    SortedBy(EventsAt(db, ids), IdLe)
  }

  lemma ScoreIs(e: Event, group: set<Event>, wanted: seq<string>, isExpanded: bool)
    requires EventIdsUnique(group) && e in group
    ensures e in ByRecency(group)
    ensures Score(e, group, wanted, isExpanded)
         == Scored(e, Overlap(e.tags, wanted), IndexIn(ByRecency(group), e), isExpanded, 0, e.confidence)
  {
    hide Overlap, IndexIn, EventIdsUnique, TotalOrderOn, MoreRecent;
  }

  /** `_score_events` */
  method ScoreEvents(events: seq<Event>, wanted: seq<string>, isExpanded: bool) returns (scored: seq<Scored>)
    requires EventIdsUnique(Elements(events))
    ensures |scored| == |events|
    ensures forall i | 0 <= i < |events| :: scored[i] == Score(events[i], Elements(events), wanted, isExpanded)
  {
    hide Overlap, EventIdsUnique, ByRecency, IndexIn, Score;
    var recency := ByRecency(Elements(events));
    scored := [];
    for i := 0 to |events|
      invariant |scored| == i
      invariant forall k | 0 <= k < i :: scored[k] == Score(events[k], Elements(events), wanted, isExpanded)
    {
      var e := events[i];
      ScoreIs(e, Elements(events), wanted, isExpanded);
      scored := scored + [Scored(e, Overlap(e.tags, wanted), IndexIn(recency, e), isExpanded, 0, e.confidence)];
    }
  }

  lemma ScoredGroupElements(events: seq<Event>, wanted: seq<string>, isExpanded: bool, scored: seq<Scored>)
    requires EventIdsUnique(Elements(events)) && |scored| == |events|
    requires forall i | 0 <= i < |events| :: scored[i] == Score(events[i], Elements(events), wanted, isExpanded)
    ensures Elements(scored) == ScoredGroup(Elements(events), wanted, isExpanded)
  {
    hide Score, EventIdsUnique;
    forall s
      ensures s in scored <==> s in ScoredGroup(Elements(events), wanted, isExpanded)
    {
      if s in ScoredGroup(Elements(events), wanted, isExpanded) {
        var e :| e in Elements(events) && s == Score(e, Elements(events), wanted, isExpanded);
        var i :| 0 <= i < |events| && events[i] == e;
        assert scored[i] == s;
      }
      if s in scored {
        var i :| 0 <= i < |scored| && scored[i] == s;
        assert events[i] in Elements(events);
      }
    }
  }

  /** `x` is outside `seen` and named by one of the first `n` primary events. */
  ghost predicate Named(primary: seq<Scored>, seen: set<int>, n: nat, x: int) {
    x !in seen && exists i :: 0 <= i < n && i < |primary| && x in primary[i].event.relatedIds
  }

  ghost predicate Linked(links: seq<Link>, anchors: set<int>, seen: set<int>, n: nat, x: int) {
    x !in seen && exists i :: 0 <= i < n && i < |links| && Touches(links[i], anchors)
                              && (x == links[i].source || x == links[i].target)
  }

  /** The two collecting loops of `_expand_related`. */
  method CollectNeighbours(db: Db, primary: seq<Scored>, seen: set<int>) returns (toFetch: set<int>)
    ensures forall x :: x in toFetch <==>
              Named(primary, seen, |primary|, x) || Linked(db.links, LinkAnchors(seen), seen, |db.links|, x)
  {
    hide LinkAnchors, Touches;
    toFetch := {};
    for i := 0 to |primary|
      invariant forall x :: x in toFetch <==> Named(primary, seen, i, x)
    {
      var related := primary[i].event.relatedIds;
      for k := 0 to |related|
        invariant forall x :: x in toFetch <==> Named(primary, seen, i, x) || (x !in seen && x in related[..k])
      {
        if related[k] !in seen { toFetch := toFetch + {related[k]}; }
      }
      assert related[..|related|] == related;
    }
    var anchors := LinkAnchors(seen);
    for i := 0 to |db.links|
      invariant forall x :: x in toFetch <==>
                  Named(primary, seen, |primary|, x) || Linked(db.links, anchors, seen, i, x)
    {
      var l := db.links[i];
      if Touches(l, anchors) {
        if l.source !in seen { toFetch := toFetch + {l.source}; }
        if l.target !in seen { toFetch := toFetch + {l.target}; }
      }
    }
  }

  /** The primary entries carry exactly the events `ids`, as the tables hold them. */
  ghost predicate Carries(db: Db, primary: seq<Scored>, ids: set<int>) {
    && ids <= db.events.Keys
    && (forall s | s in primary :: s.event.id in ids && s.event == db.events[s.event.id])
    && (forall id | id in ids :: exists i :: 0 <= i < |primary| && primary[i].event.id == id)
  }

  lemma NeighboursAreExpandedIds(db: Db, primary: seq<Scored>, ids: set<int>, toFetch: set<int>)
    requires Carries(db, primary, ids)
    requires forall x :: x in toFetch <==>
               Named(primary, ids, |primary|, x) || Linked(db.links, LinkAnchors(ids), ids, |db.links|, x)
    ensures (set x | x in toFetch && x in db.events) == ExpandedIds(db, ids)
  {
    hide LinkEnds, Named, Linked, Carries;
    forall x
      ensures x in toFetch && x in db.events <==> x in ExpandedIds(db, ids)
    {
      LinkedIff(db.links, LinkAnchors(ids), ids, x);
      NamedIff(db, primary, ids, x);
      OneHopIff(db, ids, x);
    }
  }

  lemma OneHopIff(db: Db, ids: set<int>, x: int)
    ensures x in OneHop(db, ids) <==>
              || (exists id :: id in ids && id in db.events && x in db.events[id].relatedIds)
              || x in LinkEnds(db.links, ids)
  {
    hide LinkEnds;
  }

  lemma LinkedIff(links: seq<Link>, anchors: set<int>, ids: set<int>, x: int)
    ensures Linked(links, anchors, ids, |links|, x) <==> x !in ids && x in LinkEnds(links, anchors)
  {
    hide Touches;
    if x !in ids && x in LinkEnds(links, anchors) {
      var l :| l in links && Touches(l, anchors) && (x == l.source || x == l.target);
      var i :| 0 <= i < |links| && links[i] == l;
    }
  }

  lemma NamedIff(db: Db, primary: seq<Scored>, ids: set<int>, x: int)
    requires Carries(db, primary, ids)
    ensures Named(primary, ids, |primary|, x) <==>
              x !in ids && exists id :: id in ids && id in db.events && x in db.events[id].relatedIds
  {
    if Named(primary, ids, |primary|, x) {
      var i :| 0 <= i < |primary| && x in primary[i].event.relatedIds;
      assert primary[i] in primary;
      assert primary[i].event.id in ids;
    }
    if id :| x !in ids && id in ids && id in db.events && x in db.events[id].relatedIds {
      var i :| 0 <= i < |primary| && primary[i].event.id == id;
      assert primary[i] in primary;
    }
  }

  /** `_expand_related`: the primary entries followed by the scored neighbours. */
  method ExpandRelated(db: Db, primary: seq<Scored>, wanted: seq<string>, ghost ids: set<int>)
    returns (scored: seq<Scored>)
    requires WellKeyed(db) && Carries(db, primary, ids) && IdsDistinct(primary)
    ensures EventIdsUnique(EventsAt(db, ExpandedIds(db, ids)))
    ensures Elements(scored) == Elements(primary) + ScoredGroup(EventsAt(db, ExpandedIds(db, ids)), wanted, true)
    ensures IdsDistinct(scored)
  {
    hide *;
    var seen := set s | s in primary :: s.event.id;
    SeenAre(db, primary, ids);
    var toFetch := CollectNeighbours(db, primary, seen);
    NeighboursAreExpandedIds(db, primary, ids, toFetch);
    var found := set x | x in toFetch && x in db.events;
    var related := FetchEvents(db, found);
    ListingElements(related, EventsAt(db, found), IdLe);
    var expanded := ScoreEvents(related, wanted, true);
    ScoredGroupElements(related, wanted, true, expanded);
    ScoredIdsDistinct(related, wanted, true, expanded);
    NeighboursAreNew(db, primary, ids, expanded, wanted);
    scored := primary + expanded;
    ElementsConcat(primary, expanded);
  }

  lemma SeenAre(db: Db, primary: seq<Scored>, ids: set<int>)
    requires Carries(db, primary, ids)
    ensures (set s | s in primary :: s.event.id) == ids
  {
    forall id | id in ids
      ensures exists s :: s in primary && s.event.id == id
    {
      var i :| 0 <= i < |primary| && primary[i].event.id == id;
      assert primary[i] in primary;
    }
  }

  /** The list holds no event twice. */
  ghost predicate IdsDistinct(scored: seq<Scored>) {
    forall i, j | 0 <= i < j < |scored| :: scored[i].event.id != scored[j].event.id
  }

  lemma ScoredIdsDistinct(events: seq<Event>, wanted: seq<string>, isExpanded: bool, scored: seq<Scored>)
    requires Distinct(events) && EventIdsUnique(Elements(events)) && |scored| == |events|
    requires forall i | 0 <= i < |events| :: scored[i] == Score(events[i], Elements(events), wanted, isExpanded)
    ensures IdsDistinct(scored)
  {
    hide ByRecency, IndexIn, Overlap;
    forall i, j | 0 <= i < j < |scored|
      ensures scored[i].event.id != scored[j].event.id
    {
      assert events[i] in Elements(events) && events[j] in Elements(events);
    }
  }

  lemma NeighboursAreNew(db: Db, primary: seq<Scored>, ids: set<int>, expanded: seq<Scored>, wanted: seq<string>)
    requires WellKeyed(db) && Carries(db, primary, ids) && IdsDistinct(primary) && IdsDistinct(expanded)
    requires EventIdsUnique(EventsAt(db, ExpandedIds(db, ids)))
    requires Elements(expanded) == ScoredGroup(EventsAt(db, ExpandedIds(db, ids)), wanted, true)
    ensures IdsDistinct(primary + expanded)
  {
    hide OneHop, LinkEnds, ByRecency, IndexIn, Overlap;
    forall i, j | 0 <= i < |primary| && 0 <= j < |expanded|
      ensures primary[i].event.id != expanded[j].event.id
    {
      assert primary[i] in primary;
      assert expanded[j] in Elements(expanded);
    }
  }

  // ---------------------------------------------------------------------------
  // Semantic ranks
  // ---------------------------------------------------------------------------

  /** The active embedding of an event. */
  datatype Embedding = Embedding(contentHash: string, dimensions: nat, vector: string)

  /** The active embeddings by event, the content hash, and the query vector: its dimensions and its
      rounded cosine similarity to a stored vector. */
  datatype Semantics = Semantics(embeddings: map<int, Embedding>, hash: (string, string) -> string,
                                 dimensions: nat, similarity: string -> real)

  /** The event has an active embedding of its current text in the query's dimensions. */
  predicate Eligible(m: Semantics, e: Event) {
    && e.id in m.embeddings
    && m.embeddings[e.id].contentHash == m.hash(e.title, e.summary)
    && m.embeddings[e.id].dimensions == m.dimensions
  }

  function Similarity(m: Semantics, id: int): real {
    if id in m.embeddings then m.similarity(m.embeddings[id].vector) else 0.0
  }

  /** similarity descending, then id */
  predicate MoreSimilar(m: Semantics, a: int, b: int) {
    Similarity(m, a) > Similarity(m, b) || (Similarity(m, a) == Similarity(m, b) && a <= b)
  }

  function EligibleIds(m: Semantics, group: set<Event>): set<int> {
    set e | e in group && Eligible(m, e) :: e.id
  }

  function BySimilarity(m: Semantics, ids: set<int>): (r: seq<int>)
    ensures IsListing(r, ids, (a, b) => MoreSimilar(m, a, b))
  {
    SortedBy(ids, (a, b) => MoreSimilar(m, a, b))
  }

  /** An eligible event's place in the order of similarity; all others share the rank after the last. */
  function SemanticRank(m: Semantics, group: set<Event>, id: int): nat {
    var eligible := EligibleIds(m, group);
    if id in eligible then IndexIn(BySimilarity(m, eligible), id) else |eligible|
  }

  method CollectEligible(events: seq<Event>, m: Semantics) returns (eligible: set<int>)
    ensures eligible == EligibleIds(m, Elements(events))
  {
    hide Eligible;
    eligible := {};
    for i := 0 to |events|
      invariant eligible == EligibleIds(m, Elements(events[..i]))
    {
      assert events[..i + 1] == events[..i] + [events[i]];
      if Eligible(m, events[i]) { eligible := eligible + {events[i].id}; }
    }
    assert events[..|events|] == events;
  }

  /** `{x: rank for rank, x in enumerate(order)}` */
  method Enumerate(order: seq<int>) returns (ranks: map<int, nat>)
    requires Distinct(order)
    ensures ranks.Keys == Elements(order) && forall id | id in order :: ranks[id] == IndexIn(order, id)
  {
    hide IndexIn;
    ranks := map[];
    for k := 0 to |order|
      invariant ranks.Keys == Elements(order[..k])
      invariant forall id | id in ranks :: id in order && ranks[id] == IndexIn(order, id)
    {
      assert order[..k + 1] == order[..k] + [order[k]];
      IndexInDistinct(order, k);
      ranks := ranks[order[k] := k];
    }
    assert order[..|order|] == order;
  }

  /** `_compute_semantic_ranks` */
  method ComputeSemanticRanks(events: seq<Event>, m: Semantics) returns (ranks: map<int, nat>, count: nat)
    ensures count == |EligibleIds(m, Elements(events))|
    ensures forall e | e in events :: e.id in ranks && ranks[e.id] == SemanticRank(m, Elements(events), e.id)
  {
    hide Eligible, EligibleIds, MoreSimilar, IndexIn, OrderedBy;
    var eligible := CollectEligible(events, m);
    var order := BySimilarity(m, eligible);
    ranks := Enumerate(order);
    for i := 0 to |events|
      invariant ranks.Keys >= eligible && forall e | e in events[..i] :: e.id in ranks
      invariant forall id | id in ranks :: ranks[id] == SemanticRank(m, Elements(events), id)
    {
      assert events[..i + 1] == events[..i] + [events[i]];
      if events[i].id !in ranks { ranks := ranks[events[i].id := |eligible|]; }
    }
    assert events[..|events|] == events;
    count := |eligible|;
  }

  lemma IndexFollowsOrder<T(!new)>(r: seq<T>, s: set<T>, le: (T, T) -> bool, a: T, b: T)
    requires TotalOrderOn(s, le) && IsListing(r, s, le)
    requires a in r && b in r && a != b
    ensures IndexIn(r, a) < IndexIn(r, b) <==> le(a, b)
  {
    hide IndexIn;
    var i, j := IndexIn(r, a), IndexIn(r, b);
    if i < j { assert le(r[i], r[j]); } else { assert j < i && le(r[j], r[i]); }
  }

  ghost predicate RankTaken(m: Semantics, group: set<Event>, k: nat) {
    exists id :: id in EligibleIds(m, group) && SemanticRank(m, group, id) == k
  }

  /** Ranks are a bijection from the eligible events onto 0..C-1, in order of similarity; every other
      event has rank C. */
  lemma SemanticRanksAreBijection(m: Semantics, group: set<Event>)
    ensures var ids := EligibleIds(m, group);
            && (forall id | id in ids :: SemanticRank(m, group, id) < |ids|)
            && (forall k | 0 <= k < |ids| :: RankTaken(m, group, k))
            && (forall a, b | a in ids && b in ids && a != b ::
                  SemanticRank(m, group, a) < SemanticRank(m, group, b) <==> MoreSimilar(m, a, b))
            && (forall id | id !in ids :: SemanticRank(m, group, id) == |ids|)
  {
    hide EligibleIds, MoreSimilar, OrderedBy, Similarity, IndexIn;
    var ids := EligibleIds(m, group);
    var order := BySimilarity(m, ids);
    forall k | 0 <= k < |ids|
      ensures RankTaken(m, group, k)
    {
      IndexInDistinct(order, k);
      assert order[k] in order;
      assert order[k] in ids && SemanticRank(m, group, order[k]) == k;
    }
    forall a, b | a in ids && b in ids && a != b
      ensures SemanticRank(m, group, a) < SemanticRank(m, group, b) <==> MoreSimilar(m, a, b)
    {
      SimilarityIsTotal(m, ids);
      IndexFollowsOrder(order, ids, (x, y) => MoreSimilar(m, x, y), a, b);
    }
  }

  lemma SimilarityIsTotal(m: Semantics, ids: set<int>)
    ensures TotalOrderOn(ids, (a, b) => MoreSimilar(m, a, b))
  {
    hide Similarity;
  }

  // ---------------------------------------------------------------------------
  // Retrieval
  // ---------------------------------------------------------------------------

  /** Every entry a query considers, before the effective confidence and the semantic rank are set. */
  function Entries(db: Db, c: Criteria): set<Scored>
    requires WellKeyed(db)
  {
    var primary := PrimaryIds(db, c);
    ScoredGroup(EventsAt(db, primary), c.tags, false)
    + if c.expandRelated then ScoredGroup(EventsAt(db, ExpandedIds(db, primary)), c.tags, true) else {}
  }

  function ConfidenceOf(confidence: map<int, int>, e: Event): int {
    if e.id in confidence then confidence[e.id] else e.confidence
  }

  function Finished(s: Scored, confidence: map<int, int>, semantics: Option<Semantics>, group: set<Event>): Scored {
    s.(effectiveConfidence := ConfidenceOf(confidence, s.event),
       semanticRank := if semantics.Some? then SemanticRank(semantics.value, group, s.event.id) else s.semanticRank)
  }

  function EventsOf(entries: set<Scored>): set<Event> {
    set s | s in entries :: s.event
  }

  function Finishing(db: Db, c: Criteria, confidence: map<int, int>, semantics: Option<Semantics>): set<Scored>
    requires WellKeyed(db)
  {
    var entries := Entries(db, c);
    set s | s in entries :: Finished(s, confidence, semantics, EventsOf(entries))
  }

  lemma EntriesAreUnique(db: Db, c: Criteria)
    requires WellKeyed(db)
    ensures IdsUnique(Entries(db, c))
    ensures forall s | s in Entries(db, c) :: s.event.id in db.events && s.event == db.events[s.event.id]
    ensures forall s | s in Entries(db, c) :: s.isExpanded <==> s.event.id !in PrimaryIds(db, c)
  {
    hide Matches, OneHop, LinkEnds, IndexIn, ByRecency, Overlap;
  }

  lemma FinishingIsUnique(db: Db, c: Criteria, confidence: map<int, int>, semantics: Option<Semantics>)
    requires WellKeyed(db)
    ensures IdsUnique(Finishing(db, c, confidence, semantics))
    ensures TotalOrderOn(Finishing(db, c, confidence, semantics), RanksBefore)
  {
    hide Entries, SemanticRank, RanksBefore, TotalOrderOn, ConfidenceOf;
    EntriesAreUnique(db, c);
    RankingIsTotal(Finishing(db, c, confidence, semantics));
  }

  /** The full ranked list, of which a query returns a slice. */
  function Ranking(db: Db, c: Criteria, confidence: map<int, int>, semantics: Option<Semantics>): seq<Scored>
    requires WellKeyed(db)
  {
    FinishingIsUnique(db, c, confidence, semantics);
    SortedBy(Finishing(db, c, confidence, semantics), RanksBefore)
  }

  /** A slice bound, which counts from the end when negative. */
  function Bound(i: int, n: nat): nat {
    if i >= 0 then (if i <= n then i else n) else if i + n >= 0 then i + n else 0
  }

  /** `s[start:end]` */
  function Slice<T>(s: seq<T>, start: int, end: int): seq<T> {
    var lo, hi := Bound(start, |s|), Bound(end, |s|);
    if lo <= hi then s[lo..hi] else s[lo..lo]
  }

  /** `scored.sort(key=composite_key)` over entries of distinct events. */
  method SortScored(scored: seq<Scored>) returns (ranking: seq<Scored>)
    requires IdsDistinct(scored)
    ensures TotalOrderOn(Elements(scored), RanksBefore)
    ensures ranking == SortedBy(Elements(scored), RanksBefore) && |ranking| == |scored|
  {
    hide RanksBefore, TotalOrderOn;
    assert IdsUnique(Elements(scored));
    RankingIsTotal(Elements(scored));
    SameSize(scored, Elements(scored));
    return SortedBy(Elements(scored), RanksBefore);
  }

  method SetConfidence(entries: seq<Scored>, confidence: map<int, int>) returns (scored: seq<Scored>)
    ensures |scored| == |entries|
    ensures forall i | 0 <= i < |entries| ::
              scored[i] == entries[i].(effectiveConfidence := ConfidenceOf(confidence, entries[i].event))
  {
    scored := entries;
    for i := 0 to |entries|
      invariant |scored| == |entries| && scored[i..] == entries[i..]
      invariant forall k | 0 <= k < i ::
                  scored[k] == entries[k].(effectiveConfidence := ConfidenceOf(confidence, entries[k].event))
    {
      assert scored[i] == scored[i..][0] == entries[i];
      scored := scored[i := scored[i].(effectiveConfidence := ConfidenceOf(confidence, scored[i].event))];
      assert scored[i + 1..] == entries[i..][1..];
    }
  }

  method SetSemanticRanks(entries: seq<Scored>, m: Semantics, ghost group: set<Event>) returns (scored: seq<Scored>)
    requires group == EventsOf(Elements(entries))
    ensures |scored| == |entries|
    ensures forall i | 0 <= i < |entries| ::
              scored[i] == entries[i].(semanticRank := SemanticRank(m, group, entries[i].event.id))
  {
    hide SemanticRank, EligibleIds;
    var events := seq(|entries|, i requires 0 <= i < |entries| => entries[i].event);
    EventsOfList(entries, events);
    var ranks, count := ComputeSemanticRanks(events, m);
    scored := entries;
    for i := 0 to |entries|
      invariant |scored| == |entries| && scored[i..] == entries[i..]
      invariant forall k | 0 <= k < i ::
                  scored[k] == entries[k].(semanticRank := SemanticRank(m, group, entries[k].event.id))
    {
      assert scored[i] == scored[i..][0] == entries[i];
      assert events[i] in events;
      var id := scored[i].event.id;
      scored := scored[i := scored[i].(semanticRank := if id in ranks then ranks[id] else count)];
      assert scored[i + 1..] == entries[i..][1..];
    }
  }

  lemma EventsOfList(entries: seq<Scored>, events: seq<Event>)
    requires |events| == |entries| && forall i | 0 <= i < |entries| :: events[i] == entries[i].event
    ensures Elements(events) == EventsOf(Elements(entries))
  {
    forall e
      ensures e in events <==> e in EventsOf(Elements(entries))
    {
      if e in EventsOf(Elements(entries)) {
        var s :| s in entries && s.event == e;
        var i :| 0 <= i < |entries| && entries[i] == s;
        assert events[i] == e;
      }
      if e in events {
        var i :| 0 <= i < |events| && events[i] == e;
        assert entries[i] in Elements(entries);
      }
    }
  }

  lemma FinishedList(entries: seq<Scored>, scored: seq<Scored>, confidence: map<int, int>,
                     semantics: Option<Semantics>, group: set<Event>)
    requires |scored| == |entries|
    requires forall i | 0 <= i < |entries| :: scored[i] == Finished(entries[i], confidence, semantics, group)
    ensures Elements(scored) == set s | s in Elements(entries) :: Finished(s, confidence, semantics, group)
    ensures IdsDistinct(entries) ==> IdsDistinct(scored)
  {
    hide SemanticRank, ConfidenceOf;
    forall t
      ensures t in scored <==> exists s :: s in entries && t == Finished(s, confidence, semantics, group)
    {
      if s :| s in entries && t == Finished(s, confidence, semantics, group) {
        var i :| 0 <= i < |entries| && entries[i] == s;
        assert scored[i] == t;
      }
      if t in scored {
        var i :| 0 <= i < |scored| && scored[i] == t;
        assert entries[i] in entries;
      }
    }
  }

  lemma PrimaryCarried(db: Db, ids: set<int>, candidates: seq<Event>, scored: seq<Scored>, wanted: seq<string>)
    requires WellKeyed(db) && ids <= db.events.Keys && IsListing(candidates, EventsAt(db, ids), IdLe)
    requires EventIdsUnique(Elements(candidates)) && |scored| == |candidates|
    requires forall i | 0 <= i < |candidates| :: scored[i] == Score(candidates[i], Elements(candidates), wanted, false)
    ensures Carries(db, scored, ids)
  {
    hide ByRecency, IndexIn, Overlap;
    forall s | s in scored
      ensures s.event.id in ids && s.event == db.events[s.event.id]
    {
      var i :| 0 <= i < |scored| && scored[i] == s;
      assert candidates[i] in candidates;
    }
    forall id | id in ids
      ensures exists i :: 0 <= i < |scored| && scored[i].event.id == id
    {
      assert db.events[id] in candidates;
      var i :| 0 <= i < |candidates| && candidates[i] == db.events[id];
      assert scored[i].event.id == id;
    }
  }

  /** The entries of a query, as `retrieve` gathers them. */
  method GatherEntries(db: Db, c: Criteria) returns (scored: seq<Scored>)
    requires WellKeyed(db)
    ensures Elements(scored) == Entries(db, c) && IdsDistinct(scored)
  {
    hide PrimaryIds, ExpandedIds, Score, Carries, IdsDistinct, IsListing, EventsAt, EventIdsUnique;
    var ids := PrimaryIds(db, c);
    PrimaryExists(db, c);
    var candidates := FetchEvents(db, ids);
    ListingElements(candidates, EventsAt(db, ids), IdLe);
    scored := ScoreEvents(candidates, c.tags, false);
    ScoredGroupElements(candidates, c.tags, false, scored);
    ScoredIdsDistinct(candidates, c.tags, false, scored);
    PrimaryCarried(db, ids, candidates, scored, c.tags);
    if c.expandRelated {
      scored := ExpandRelated(db, scored, c.tags, ids);
    }
  }

  lemma EventsKept(a: seq<Scored>, b: seq<Scored>)
    requires |a| == |b| && forall i | 0 <= i < |a| :: a[i].event == b[i].event
    ensures EventsOf(Elements(a)) == EventsOf(Elements(b))
  {
    var events := seq(|a|, i requires 0 <= i < |a| => a[i].event);
    EventsOfList(a, events);
    EventsOfList(b, events);
  }

  lemma PrimaryExists(db: Db, c: Criteria)
    ensures PrimaryIds(db, c) <= db.events.Keys
  {
  }

  /** `retrieve`, without its optional log. */
  method Retrieve(db: Db, q: Query, confidence: map<int, int>, semantics: Option<Semantics>)
    returns (results: seq<Scored>)
    requires WellKeyed(db)
    ensures results == Slice(Ranking(db, q.criteria, confidence, semantics), q.offset, q.offset + q.limit)
    ensures forall i, j | 0 <= i < j < |results| :: Precedes(confidence, semantics, results[i], results[j])
  {
    hide IdsDistinct, SemanticRank, Slice, RanksBefore, TotalOrderOn, IsListing, Precedes;
    var entries := GatherEntries(db, q.criteria);
    ghost var group := EventsOf(Elements(entries));
    var scored := SetConfidence(entries, confidence);
    if semantics.Some? {
      EventsKept(entries, scored);
      scored := SetSemanticRanks(scored, semantics.value, group);
    }
    FinishedList(entries, scored, confidence, semantics, group);
    var ranking := SortScored(scored);
    SliceOrder(db, q, confidence, semantics);
    return Slice(ranking, q.offset, q.offset + q.limit);
  }

  // ---------------------------------------------------------------------------
  // What the ranking promises
  // ---------------------------------------------------------------------------

  /** Every primary event and, on request, every neighbour has exactly one entry. */
  lemma EntriesCoverIds(db: Db, c: Criteria)
    requires WellKeyed(db)
    ensures (set s | s in Entries(db, c) :: s.event.id)
         == PrimaryIds(db, c) + if c.expandRelated then ExpandedIds(db, PrimaryIds(db, c)) else {}
  {
    hide Matches, OneHop, LinkEnds, IndexIn, ByRecency, Overlap;
    var ids := PrimaryIds(db, c);
    GroupIds(db, ids, c.tags, false);
    GroupIds(db, ExpandedIds(db, ids), c.tags, true);
  }

  lemma GroupIds(db: Db, ids: set<int>, wanted: seq<string>, isExpanded: bool)
    requires WellKeyed(db) && ids <= db.events.Keys
    ensures EventIdsUnique(EventsAt(db, ids))
    ensures (set s | s in ScoredGroup(EventsAt(db, ids), wanted, isExpanded) :: s.event.id) == ids
  {
    hide IndexIn, ByRecency, Overlap;
    var group := ScoredGroup(EventsAt(db, ids), wanted, isExpanded);
    forall id | id in ids
      ensures exists s :: s in group && s.event.id == id
    {
      assert db.events[id] in EventsAt(db, ids);
      assert Score(db.events[id], EventsAt(db, ids), wanted, isExpanded) in group;
    }
  }

  /** The ranking is canonical: any list of the same entries that is sorted by the composite key is the
      ranking, whatever order the entries were fetched in. */
  lemma RankingIsCanonical(db: Db, c: Criteria, confidence: map<int, int>, semantics: Option<Semantics>, p: seq<Scored>)
    requires WellKeyed(db)
    requires IsListing(p, Finishing(db, c, confidence, semantics), RanksBefore)
    ensures p == Ranking(db, c, confidence, semantics)
  {
    hide IsListing, TotalOrderOn, RanksBefore, Finishing;
    FinishingIsUnique(db, c, confidence, semantics);
    var entries := Finishing(db, c, confidence, semantics);
    ListingUnique(p, SortedBy(entries, RanksBefore), entries, RanksBefore);
  }

  /** The part of the key that precedes the semantic rank: expanded, doctrine, effective confidence. */
  function Stratum(s: Scored): (key: seq<int>)
    ensures |key| == 3
  {
    CompositeKey(s)[..3]
  }

  ghost predicate StrataAscend(r: seq<Scored>) {
    forall i, j | 0 <= i < j < |r| :: LexLe(Stratum(r[i]), Stratum(r[j]))
  }

  /** Each entry of `r` has an entry of the same event and stratum in `q`. */
  ghost predicate Matched(r: seq<Scored>, q: seq<Scored>) {
    forall x | x in r :: exists j :: 0 <= j < |q| && Twins(x, q[j])
  }

  ghost predicate Twins(x: Scored, y: Scored) {
    x.event.id == y.event.id && Stratum(x) == Stratum(y)
  }

  function IdsOf(r: seq<Scored>): seq<int> {
    seq(|r|, i requires 0 <= i < |r| => r[i].event.id)
  }

  lemma TwinComesEarlier(r: seq<Scored>, q: seq<Scored>, i: nat, k: nat)
    requires Matched(r, q) && StrataAscend(r) && StrataAscend(q)
    requires k <= i < |r| && i < |q| && !LexLe(Stratum(q[i]), Stratum(r[i]))
    ensures exists j :: 0 <= j < i && Twins(r[k], q[j])
  {
    hide Stratum, LexLe;
    assert r[k] in r;
    var j :| 0 <= j < |q| && Twins(r[k], q[j]);
    LexLeReflexive(Stratum(q[i]));
    if j >= i {
      assert LexLe(Stratum(q[i]), Stratum(q[j]));
      if k < i { LexLeTransitive(Stratum(q[i]), Stratum(r[k]), Stratum(r[i])); }
      assert false;
    }
  }

  lemma StrataNotBelow(r: seq<Scored>, q: seq<Scored>, i: nat)
    requires IdsDistinct(r) && IdsDistinct(q) && Matched(r, q) && StrataAscend(r) && StrataAscend(q)
    requires i < |r| && i < |q|
    ensures LexLe(Stratum(q[i]), Stratum(r[i]))
  {
    hide Matched, StrataAscend, Stratum, LexLe;
    if !LexLe(Stratum(q[i]), Stratum(r[i])) {
      var front, back := IdsOf(r)[..i + 1], IdsOf(q)[..i];
      forall k | 0 <= k < |front|
        ensures front[k] in back
      {
        TwinComesEarlier(r, q, i, k);
        var j :| 0 <= j < i && Twins(r[k], q[j]);
        assert back[j] == front[k];
      }
      SameSize(front, Elements(front));
      SameSize(back, Elements(back));
      SubsetIsSmaller(Elements(front), Elements(back));
      assert false;
    }
  }

  lemma RankingAscends(db: Db, c: Criteria, confidence: map<int, int>, semantics: Option<Semantics>)
    requires WellKeyed(db)
    ensures var r := Ranking(db, c, confidence, semantics);
            && StrataAscend(r) && IdsDistinct(r)
            && (forall s :: s in r <==> s in Finishing(db, c, confidence, semantics))
  {
    hide Finishing, LexLe, CompositeKey, TotalOrderOn;
    FinishingIsUnique(db, c, confidence, semantics);
    var r := Ranking(db, c, confidence, semantics);
    forall i, j | 0 <= i < j < |r|
      ensures LexLe(Stratum(r[i]), Stratum(r[j])) && r[i].event.id != r[j].event.id
    {
      assert RanksBefore(r[i], r[j]);
      LexLePrefix(CompositeKey(r[i]), CompositeKey(r[j]), 3);
      assert r[i] in r && r[j] in r;
    }
  }

  lemma FinishedTwins(db: Db, c: Criteria, confidence: map<int, int>, a: Option<Semantics>, b: Option<Semantics>)
    requires WellKeyed(db)
    ensures Matched(Ranking(db, c, confidence, a), Ranking(db, c, confidence, b))
  {
    hide Entries, SemanticRank, ConfidenceOf, DoctrineRank, Ranking;
    RankingAscends(db, c, confidence, a);
    RankingAscends(db, c, confidence, b);
    var r, q := Ranking(db, c, confidence, a), Ranking(db, c, confidence, b);
    var entries := Entries(db, c);
    forall x | x in r
      ensures exists j :: 0 <= j < |q| && Twins(x, q[j])
    {
      var s :| s in entries && x == Finished(s, confidence, a, EventsOf(entries));
      var y := Finished(s, confidence, b, EventsOf(entries));
      assert y in Finishing(db, c, confidence, b);
      assert y in q;
      var j :| 0 <= j < |q| && q[j] == y;
      assert Twins(x, q[j]);
    }
  }

  /** A query vector only reorders inside strata: with and without it, the ranked lists agree at every
      index on whether the entry is expanded, its doctrine rank and its effective confidence. */
  lemma SemanticRerankStaysInStrata(db: Db, c: Criteria, confidence: map<int, int>, m: Semantics)
    requires WellKeyed(db)
    ensures var plain, reranked := Ranking(db, c, confidence, None), Ranking(db, c, confidence, Some(m));
            |plain| == |reranked| && forall i | 0 <= i < |plain| :: Stratum(plain[i]) == Stratum(reranked[i])
  {
    hide Ranking, Matched, StrataAscend, Stratum, LexLe;
    var plain, reranked := Ranking(db, c, confidence, None), Ranking(db, c, confidence, Some(m));
    RankingAscends(db, c, confidence, None);
    RankingAscends(db, c, confidence, Some(m));
    FinishedTwins(db, c, confidence, None, Some(m));
    FinishedTwins(db, c, confidence, Some(m), None);
    MatchedIsNoLonger(plain, reranked);
    MatchedIsNoLonger(reranked, plain);
    forall i | 0 <= i < |plain|
      ensures Stratum(plain[i]) == Stratum(reranked[i])
    {
      StrataNotBelow(plain, reranked, i);
      StrataNotBelow(reranked, plain, i);
      LexLeAntisymmetric(Stratum(plain[i]), Stratum(reranked[i]));
    }
  }

  lemma MatchedIsNoLonger(r: seq<Scored>, q: seq<Scored>)
    requires IdsDistinct(r) && IdsDistinct(q) && Matched(r, q)
    ensures |r| <= |q|
  {
    hide Stratum;
    forall k | 0 <= k < |r|
      ensures IdsOf(r)[k] in IdsOf(q)
    {
      assert r[k] in r;
      var j :| 0 <= j < |q| && Twins(r[k], q[j]);
      assert IdsOf(q)[j] == IdsOf(r)[k];
    }
    SameSize(IdsOf(r), Elements(IdsOf(r)));
    SameSize(IdsOf(q), Elements(IdsOf(q)));
    SubsetIsSmaller(Elements(IdsOf(r)), Elements(IdsOf(q)));
  }

  // ---------------------------------------------------------------------------
  // The order of the ranking, said of the rows
  // ---------------------------------------------------------------------------

  /** The event types in the order of the doctrine; all others come after them. */
  const TYPE_ORDER: seq<string> :=
    ["governance_rule", "architecture_decision", "validation_result", "adaptation", "hypothesis",
     "implementation_note"]

  /** No type of the order is skipped: `a` is not later in it than `b`. */
  ghost predicate TypeNotAfter(a: string, b: string) {
    forall k | 0 <= k < |TYPE_ORDER| && b == TYPE_ORDER[k] :: exists j :: 0 <= j <= k && a == TYPE_ORDER[j]
  }

  /** The effective confidence: the newest operator revision's, or the event's own. */
  ghost predicate HasConfidence(confidence: map<int, int>, s: Scored, x: int) {
    if s.event.id in confidence then x == confidence[s.event.id] else x == s.event.confidence
  }

  /** The event has an active embedding of its present text, in as many dimensions as the query. */
  ghost predicate Comparable(m: Semantics, e: Event) {
    && e.id in m.embeddings
    && m.embeddings[e.id].contentHash == m.hash(e.title, e.summary)
    && m.embeddings[e.id].dimensions == m.dimensions
  }

  /** `a` was updated later than `b`, or at the same time and has the larger id. */
  ghost predicate Fresher(a: Event, b: Event) {
    (a.updatedAt != b.updatedAt && TextLe(b.updatedAt, a.updatedAt)) || (a.updatedAt == b.updatedAt && a.id > b.id)
  }

  /** What comes first among entries alike in expansion, type and confidence: with a query vector the
      comparable events by similarity and id, the others after them; then the fresher. */
  ghost predicate BreaksTie(semantics: Option<Semantics>, a: Event, b: Event) {
    if semantics.None? then Fresher(a, b)
    else
      var m := semantics.value;
      if Comparable(m, a) && Comparable(m, b) then
        var x, y := m.similarity(m.embeddings[a.id].vector), m.similarity(m.embeddings[b.id].vector);
        x > y || (x == y && a.id < b.id)
      else Comparable(m, a) || (!Comparable(m, b) && Fresher(a, b))
  }

  /** Why `a` is ranked before `b`: primary before expanded, then the order of the types, then the higher
      effective confidence, then the tie-break. */
  ghost predicate Precedes(confidence: map<int, int>, semantics: Option<Semantics>, a: Scored, b: Scored) {
    if a.isExpanded != b.isExpanded then !a.isExpanded
    else if !TypeNotAfter(b.event.eventType, a.event.eventType) then
      TypeNotAfter(a.event.eventType, b.event.eventType)
    else
      && TypeNotAfter(a.event.eventType, b.event.eventType)
      && HasConfidence(confidence, a, a.effectiveConfidence) && HasConfidence(confidence, b, b.effectiveConfidence)
      && a.effectiveConfidence >= b.effectiveConfidence
      && (a.effectiveConfidence == b.effectiveConfidence ==> BreaksTie(semantics, a.event, b.event))
  }

  lemma LexLeStep(a: seq<int>, b: seq<int>, k: nat)
    requires |a| == |b| && k < |a|
    ensures LexLe(a[k..], b[k..]) <==> a[k] < b[k] || (a[k] == b[k] && LexLe(a[k + 1..], b[k + 1..]))
  {
    assert a[k..][1..] == a[k + 1..] && b[k..][1..] == b[k + 1..];
  }

  /** The first five components of the key decide between entries that differ in them. */
  lemma KeyDecides(a: Scored, b: Scored)
    requires RanksBefore(a, b)
    ensures a.isExpanded ==> b.isExpanded
    ensures a.isExpanded == b.isExpanded ==> DoctrineRank(a.event.eventType) <= DoctrineRank(b.event.eventType)
    ensures a.isExpanded == b.isExpanded && DoctrineRank(a.event.eventType) == DoctrineRank(b.event.eventType) ==>
              && a.effectiveConfidence >= b.effectiveConfidence
              && (a.effectiveConfidence == b.effectiveConfidence ==>
                    && a.semanticRank <= b.semanticRank
                    && (a.semanticRank == b.semanticRank ==> a.recencyRank <= b.recencyRank))
  {
    hide LexLe, DoctrineRank;
    var x, y := CompositeKey(a), CompositeKey(b);
    assert x[0..] == x && y[0..] == y;
    LexLeStep(x, y, 0);
    LexLeStep(x, y, 1);
    LexLeStep(x, y, 2);
    LexLeStep(x, y, 3);
    LexLeStep(x, y, 4);
  }

  lemma DoctrineIsTypeOrder(a: string, b: string)
    ensures DoctrineRank(a) <= DoctrineRank(b) <==> TypeNotAfter(a, b)
  {
    hide TypeNotAfter;
    PlaceInOrder(a);
    PlaceInOrder(b);
    PlacesDecide(a, b);
  }

  lemma PlaceInOrder(t: string)
    ensures 1 <= DoctrineRank(t) <= 7
    ensures DoctrineRank(t) <= 6 ==> TYPE_ORDER[DoctrineRank(t) - 1] == t
    ensures DoctrineRank(t) == 7 ==> forall k | 0 <= k < 6 :: TYPE_ORDER[k] != t
  {
  }

  lemma OrderIsDistinct()
    ensures |TYPE_ORDER| == 6 && forall i, j | 0 <= i < j < 6 :: TYPE_ORDER[i] != TYPE_ORDER[j]
  {
    var lengths := [15, 21, 17, 10, 10, 19];
    assert forall i | 0 <= i < 6 :: |TYPE_ORDER[i]| == lengths[i];
    assert TYPE_ORDER[3][0] == 'a' && TYPE_ORDER[4][0] == 'h';
  }

  lemma PlacesDecide(a: string, b: string)
    requires 1 <= DoctrineRank(a) <= 7 && 1 <= DoctrineRank(b) <= 7 && |TYPE_ORDER| == 6
    requires DoctrineRank(a) <= 6 ==> TYPE_ORDER[DoctrineRank(a) - 1] == a
    requires DoctrineRank(b) <= 6 ==> TYPE_ORDER[DoctrineRank(b) - 1] == b
    requires DoctrineRank(a) == 7 ==> forall k | 0 <= k < 6 :: TYPE_ORDER[k] != a
    requires DoctrineRank(b) == 7 ==> forall k | 0 <= k < 6 :: TYPE_ORDER[k] != b
    ensures DoctrineRank(a) <= DoctrineRank(b) <==> TypeNotAfter(a, b)
  {
    hide DoctrineRank;
    OrderIsDistinct();
  }

  /** The group an entry was scored in. */
  ghost function GroupOf(db: Db, c: Criteria, isExpanded: bool): set<Event> {
    EventsAt(db, if isExpanded then ExpandedIds(db, PrimaryIds(db, c)) else PrimaryIds(db, c))
  }

  /** What an entry of the ranking holds. */
  ghost predicate IsEntry(db: Db, c: Criteria, confidence: map<int, int>, semantics: Option<Semantics>, s: Scored)
    requires WellKeyed(db)
  {
    var group := GroupOf(db, c, s.isExpanded);
    && EventIdsUnique(group) && s.event in group
    && HasConfidence(confidence, s, s.effectiveConfidence)
    && s.recencyRank == IndexIn(ByRecency(group), s.event)
    && s.semanticRank == (if semantics.Some?
                          then SemanticRank(semantics.value, EventsOf(Entries(db, c)), s.event.id) else 0)
  }

  lemma EntryHolds(db: Db, c: Criteria, confidence: map<int, int>, semantics: Option<Semantics>, s: Scored)
    requires WellKeyed(db) && s in Finishing(db, c, confidence, semantics)
    ensures IsEntry(db, c, confidence, semantics, s)
  {
    hide PrimaryIds, ExpandedIds, ByRecency, IndexIn, SemanticRank, Overlap;
    var entries := Entries(db, c);
    var e :| e in entries && s == Finished(e, confidence, semantics, EventsOf(entries));
    var group := GroupOf(db, c, s.isExpanded);
    GroupIsUnique(db, c, s.isExpanded);
    assert e in ScoredGroup(group, c.tags, s.isExpanded);
  }

  lemma GroupIsUnique(db: Db, c: Criteria, isExpanded: bool)
    requires WellKeyed(db)
    ensures EventIdsUnique(GroupOf(db, c, isExpanded))
  {
    hide Matches, OneHop, LinkEnds;
  }

  /** The order of semantic ranks is that of similarity among the comparable events. */
  lemma SemanticRankDecides(m: Semantics, group: set<Event>, a: Event, b: Event)
    requires EventIdsUnique(group) && a in group && b in group && a.id != b.id
    requires SemanticRank(m, group, a.id) <= SemanticRank(m, group, b.id)
    ensures Comparable(m, b) ==> Comparable(m, a)
    ensures Comparable(m, a) && Comparable(m, b) ==>
              var x, y := m.similarity(m.embeddings[a.id].vector), m.similarity(m.embeddings[b.id].vector);
              x > y || (x == y && a.id < b.id)
    ensures SemanticRank(m, group, a.id) == SemanticRank(m, group, b.id) <==> !Comparable(m, a) && !Comparable(m, b)
  {
    hide SemanticRank, EligibleIds, EventIdsUnique;
    SemanticRanksAreBijection(m, group);
    EligibleIff(m, group, a);
    EligibleIff(m, group, b);
  }

  lemma EligibleIff(m: Semantics, group: set<Event>, e: Event)
    requires EventIdsUnique(group) && e in group
    ensures e.id in EligibleIds(m, group) <==> Comparable(m, e)
  {
  }

  lemma RecencyDecides(group: set<Event>, a: Event, b: Event)
    requires EventIdsUnique(group) && a in group && b in group && a.id != b.id
    requires IndexIn(ByRecency(group), a) <= IndexIn(ByRecency(group), b)
    ensures Fresher(a, b)
  {
    hide IndexIn, EventIdsUnique, TotalOrderOn;
    RecencyIsTotal(group);
    IndexFollowsOrder(ByRecency(group), group, MoreRecent, b, a);
    IndexFollowsOrder(ByRecency(group), group, MoreRecent, a, b);
    SameIndex(ByRecency(group), a, b);
  }

  lemma SameIndex<T>(s: seq<T>, x: T, y: T)
    requires x in s && y in s && x != y
    ensures IndexIn(s, x) != IndexIn(s, y)
  {
    hide IndexIn;
    assert s[IndexIn(s, x)] == x && s[IndexIn(s, y)] == y;
  }

  lemma TieIsBroken(db: Db, c: Criteria, confidence: map<int, int>, semantics: Option<Semantics>, a: Scored, b: Scored)
    requires WellKeyed(db) && a.event.id != b.event.id && a.isExpanded == b.isExpanded
    requires IsEntry(db, c, confidence, semantics, a) && IsEntry(db, c, confidence, semantics, b)
    requires a.semanticRank <= b.semanticRank && (a.semanticRank == b.semanticRank ==> a.recencyRank <= b.recencyRank)
    requires a.event in EventsOf(Entries(db, c)) && b.event in EventsOf(Entries(db, c))
    requires EventIdsUnique(EventsOf(Entries(db, c)))
    ensures BreaksTie(semantics, a.event, b.event)
  {
    hide Entries, GroupOf, EventIdsUnique, SemanticRank, ByRecency, IndexIn, Fresher, Comparable, EventsOf;
    if a.semanticRank == b.semanticRank { RecencyDecides(GroupOf(db, c, a.isExpanded), a.event, b.event); }
    if semantics.Some? { SemanticRankDecides(semantics.value, EventsOf(Entries(db, c)), a.event, b.event); }
  }

  lemma EntryEvents(db: Db, c: Criteria, confidence: map<int, int>, semantics: Option<Semantics>)
    requires WellKeyed(db)
    ensures EventIdsUnique(EventsOf(Entries(db, c)))
    ensures forall s | s in Finishing(db, c, confidence, semantics) :: s.event in EventsOf(Entries(db, c))
  {
    hide Entries, SemanticRank, ConfidenceOf;
    EntriesAreUnique(db, c);
  }

  /** The ranking comes in this order, whatever the query. */
  lemma RankingOrder(db: Db, c: Criteria, confidence: map<int, int>, semantics: Option<Semantics>, i: nat, j: nat)
    requires WellKeyed(db) && i < j < |Ranking(db, c, confidence, semantics)|
    ensures var r := Ranking(db, c, confidence, semantics); Precedes(confidence, semantics, r[i], r[j])
  {
    hide Finishing, Entries, IsEntry, RanksBefore, DoctrineRank, TypeNotAfter, BreaksTie, TotalOrderOn, EventsOf;
    FinishingIsUnique(db, c, confidence, semantics);
    RankingAscends(db, c, confidence, semantics);
    var r := Ranking(db, c, confidence, semantics);
    assert RanksBefore(r[i], r[j]) && r[i] in r && r[j] in r;
    KeyDecides(r[i], r[j]);
    DoctrineIsTypeOrder(r[i].event.eventType, r[j].event.eventType);
    DoctrineIsTypeOrder(r[j].event.eventType, r[i].event.eventType);
    EntryHolds(db, c, confidence, semantics, r[i]);
    EntryHolds(db, c, confidence, semantics, r[j]);
    EntryEvents(db, c, confidence, semantics);
    EntryConfidence(db, c, confidence, semantics, r[i]);
    EntryConfidence(db, c, confidence, semantics, r[j]);
    if r[i].isExpanded == r[j].isExpanded && r[i].semanticRank <= r[j].semanticRank
       && (r[i].semanticRank == r[j].semanticRank ==> r[i].recencyRank <= r[j].recencyRank) {
      TieIsBroken(db, c, confidence, semantics, r[i], r[j]);
    }
  }

  lemma SliceOrder(db: Db, q: Query, confidence: map<int, int>, semantics: Option<Semantics>)
    requires WellKeyed(db)
    ensures var s := Slice(Ranking(db, q.criteria, confidence, semantics), q.offset, q.offset + q.limit);
            forall i, j | 0 <= i < j < |s| :: Precedes(confidence, semantics, s[i], s[j])
  {
    hide Ranking, Precedes;
    var r := Ranking(db, q.criteria, confidence, semantics);
    var s, lo := Slice(r, q.offset, q.offset + q.limit), Bound(q.offset, |r|);
    forall i, j | 0 <= i < j < |s|
      ensures Precedes(confidence, semantics, s[i], s[j])
    {
      assert s[i] == r[lo + i] && s[j] == r[lo + j];
      RankingOrder(db, q.criteria, confidence, semantics, lo + i, lo + j);
    }
  }

  /** Which events a query selects. */
  ghost predicate IsSelected(db: Db, c: Criteria, e: Event) {
    && e.id in db.events && db.events[e.id] == e
    && (c.eventTypes == [] || e.eventType in c.eventTypes) && (c.statuses == [] || e.status in c.statuses)
    && (c.minConfidence <= 1 || c.minConfidence <= e.confidence)
    && (c.tags == [] || exists tag | tag in c.tags :: tag in e.tags)
  }

  /** Which events are one hop away from the primary ones: named by one, or linked with one in either
      direction. */
  ghost predicate IsNeighbour(db: Db, ids: set<int>, x: int) {
    && x in db.events && x !in ids
    && ((exists id :: id in ids && id in db.events && x in db.events[id].relatedIds)
        || exists l :: l in db.links && LinksWith(l, ids, x))
  }

  ghost predicate LinksWith(l: Link, ids: set<int>, x: int) {
    (l.source in ids && l.target == x) || (l.target in ids && l.source == x)
  }

  lemma ExpandedAreNeighbours(db: Db, ids: set<int>, x: int)
    requires ids != {}
    ensures x in ExpandedIds(db, ids) <==> IsNeighbour(db, ids, x)
  {
    OneHopIff(db, ids, x);
    if x !in ids { EndsIff(db.links, ids, x); }
  }

  lemma EndsIff(links: seq<Link>, ids: set<int>, x: int)
    requires x !in ids
    ensures x in LinkEnds(links, ids) <==> exists l :: l in links && LinksWith(l, ids, x)
  {
    if x in LinkEnds(links, ids) {
      var l :| l in links && Touches(l, ids) && (x == l.source || x == l.target);
      assert LinksWith(l, ids, x);
    }
    if l :| l in links && LinksWith(l, ids, x) {
      assert Touches(l, ids);
      assert l.source in LinkEnds(links, ids) && l.target in LinkEnds(links, ids);
    }
  }

  lemma IndexCounts<T(!new)>(r: seq<T>, s: set<T>, le: (T, T) -> bool, x: T, before: set<T>)
    requires TotalOrderOn(s, le) && IsListing(r, s, le) && x in s
    requires forall y :: y in before <==> y in s && y != x && le(y, x)
    ensures IndexIn(r, x) == |before|
  {
    var k := IndexIn(r, x);
    forall y
      ensures y in r[..k] <==> y in before
    {
      if y in before { IndexFollowsOrder(r, s, le, y, x); }
      if y in r[..k] {
        var i :| 0 <= i < k && r[i] == y;
        assert le(r[i], r[k]) && r[i] in r;
      }
    }
    SameSize(r[..k], before);
  }

  lemma FresherIff(a: Event, b: Event)
    ensures a.id != b.id ==> (MoreRecent(a, b) <==> Fresher(a, b))
  {
    TextLeReflexive(a.updatedAt);
  }

  /** What the entries are: exactly the selected events, and on request their existing neighbours, with the
      number of query tags they carry and of fresher events in their group. */
  lemma EntriesAre(db: Db, c: Criteria, confidence: map<int, int>, semantics: Option<Semantics>, e: Event)
    requires WellKeyed(db)
    ensures var r := Ranking(db, c, confidence, semantics);
            && ((exists s :: s in r && s.event == e && !s.isExpanded) <==> IsSelected(db, c, e))
            && (c.expandRelated && PrimaryIds(db, c) != {} ==>
                  ((exists s :: s in r && s.event == e && s.isExpanded) <==>
                     e.id in db.events && db.events[e.id] == e && IsNeighbour(db, PrimaryIds(db, c), e.id)))
            && (!c.expandRelated ==> forall s | s in r :: !s.isExpanded)
  {
    hide Ranking, IsNeighbour, ExpandedIds, SemanticRank, IndexIn, ByRecency, Overlap, ConfidenceOf, TotalOrderOn;
    RankingHas(db, c, confidence, semantics);
    var r, ids := Ranking(db, c, confidence, semantics), PrimaryIds(db, c);
    InGroup(db, c, false, e, confidence, semantics);
    if c.expandRelated {
      InGroup(db, c, true, e, confidence, semantics);
      ExpandedExist(db, ids);
      EventsAtIff(db, ExpandedIds(db, ids), e);
      if ids != {} { ExpandedAreNeighbours(db, ids, e.id); }
    }
  }

  lemma ExpandedExist(db: Db, ids: set<int>)
    ensures ExpandedIds(db, ids) <= db.events.Keys
  {
    hide OneHop, LinkEnds;
  }

  lemma EventsAtIff(db: Db, ids: set<int>, e: Event)
    requires WellKeyed(db) && ids <= db.events.Keys
    ensures e in EventsAt(db, ids) <==> e.id in ids && db.events[e.id] == e
  {
  }

  lemma RankingHas(db: Db, c: Criteria, confidence: map<int, int>, semantics: Option<Semantics>)
    requires WellKeyed(db)
    ensures forall s :: s in Ranking(db, c, confidence, semantics) <==> s in Finishing(db, c, confidence, semantics)
  {
    hide Finishing, TotalOrderOn, RanksBefore;
    FinishingIsUnique(db, c, confidence, semantics);
  }

  lemma InGroup(db: Db, c: Criteria, isExpanded: bool, e: Event, confidence: map<int, int>,
                semantics: Option<Semantics>)
    requires WellKeyed(db) && (isExpanded ==> c.expandRelated)
    ensures (exists s :: s in Finishing(db, c, confidence, semantics) && s.event == e && s.isExpanded == isExpanded)
       <==> e in GroupOf(db, c, isExpanded)
  {
    hide PrimaryIds, ExpandedIds, SemanticRank, IndexIn, ByRecency, Overlap, ConfidenceOf, EventsAt;
    var group, entries := GroupOf(db, c, isExpanded), Entries(db, c);
    GroupIsUnique(db, c, isExpanded);
    GroupIsUnique(db, c, false);
    if e in group {
      var s := Score(e, group, c.tags, isExpanded);
      assert s in ScoredGroup(group, c.tags, isExpanded);
      assert s in entries;
      assert Finished(s, confidence, semantics, EventsOf(entries)) in Finishing(db, c, confidence, semantics);
    }
  }

  /** The tag overlap and the recency rank of an entry, counted. */
  lemma EntryScores(db: Db, c: Criteria, confidence: map<int, int>, semantics: Option<Semantics>, s: Scored,
                    shared: set<string>, fresher: set<Event>)
    requires WellKeyed(db) && s in Ranking(db, c, confidence, semantics)
    requires forall tag :: tag in shared <==> tag in c.tags && tag in s.event.tags
    requires forall e :: e in fresher <==> e in GroupOf(db, c, s.isExpanded) && Fresher(e, s.event)
    ensures s.tagOverlap == |shared| && s.recencyRank == |fresher|
  {
    hide Ranking, GroupOf, Finishing, IndexIn, MoreRecent, Fresher, TotalOrderOn, IsListing, EventIdsUnique, IsEntry;
    RankingHas(db, c, confidence, semantics);
    var group := GroupOf(db, c, s.isExpanded);
    EntryHolds(db, c, confidence, semantics, s);
    EntryRecency(db, c, confidence, semantics, s);
    EntryOverlap(db, c, confidence, semantics, s, shared);
    RecencyIsTotal(group);
    forall x
      ensures x in fresher <==> x in group && x != s.event && MoreRecent(x, s.event)
    {
      FresherIff(x, s.event);
      NotFresherThanItself(s.event);
      if x in group && x != s.event { DifferentIds(group, x, s.event); }
    }
    IndexCounts(ByRecency(group), group, MoreRecent, s.event, fresher);
  }

  lemma DifferentIds(group: set<Event>, a: Event, b: Event)
    requires EventIdsUnique(group) && a in group && b in group && a != b
    ensures a.id != b.id
  {
  }

  lemma EntryRecency(db: Db, c: Criteria, confidence: map<int, int>, semantics: Option<Semantics>, s: Scored)
    requires WellKeyed(db) && IsEntry(db, c, confidence, semantics, s)
    ensures var group := GroupOf(db, c, s.isExpanded);
            && EventIdsUnique(group) && s.event in group && TotalOrderOn(group, MoreRecent)
            && IsListing(ByRecency(group), group, MoreRecent) && s.event in ByRecency(group)
            && s.recencyRank == IndexIn(ByRecency(group), s.event)
  {
    hide GroupOf, IndexIn, MoreRecent, TotalOrderOn, EventIdsUnique, Entries, SemanticRank;
    RecencyIsTotal(GroupOf(db, c, s.isExpanded));
  }

  lemma EntryOverlap(db: Db, c: Criteria, confidence: map<int, int>, semantics: Option<Semantics>, s: Scored,
                     shared: set<string>)
    requires WellKeyed(db) && s in Finishing(db, c, confidence, semantics)
    requires forall tag :: tag in shared <==> tag in c.tags && tag in s.event.tags
    ensures s.tagOverlap == |shared|
  {
    hide PrimaryIds, ExpandedIds, IndexIn, SemanticRank, ByRecency, EventsAt;
    GroupIsUnique(db, c, s.isExpanded);
    assert Elements(s.event.tags) * Elements(c.tags) == shared;
  }

  lemma NotFresherThanItself(e: Event)
    ensures !Fresher(e, e)
  {
  }

  /** A negative offset counts from the end of the ranking. */
  lemma NegativeOffset<T>(ranking: seq<T>, k: int, limit: int)
    requires 0 <= limit < k <= |ranking|
    ensures Slice(ranking, -k, -k + limit) == ranking[|ranking| - k..|ranking| - k + limit]
  {
  }

  lemma EntryConfidence(db: Db, c: Criteria, confidence: map<int, int>, semantics: Option<Semantics>, s: Scored)
    requires WellKeyed(db) && IsEntry(db, c, confidence, semantics, s)
    ensures HasConfidence(confidence, s, s.effectiveConfidence)
  {
  }

  // ---------------------------------------------------------------------------
  // Paging
  // ---------------------------------------------------------------------------

  /** The pages at offsets 0, limit, 2 * limit, ... one after the other. */
  function Pages<T>(ranking: seq<T>, limit: nat, n: nat): seq<T> {
    if n == 0 then ranking[..0]
    else Pages(ranking, limit, n - 1) + Slice(ranking, (n - 1) * limit, (n - 1) * limit + limit)
  }

  /** Successive pages neither lose nor repeat an entry: together they are a prefix of the ranking, and
      all of it once they reach its end. */
  lemma {:induction false} PagesConcatenate<T>(ranking: seq<T>, limit: nat, n: nat)
    ensures Pages(ranking, limit, n) == if n * limit <= |ranking| then ranking[..n * limit] else ranking
  {
    hide Slice;
    if n > 0 {
      PagesConcatenate(ranking, limit, n - 1);
      var lo: nat := (n - 1) * limit;
      assert lo + limit == n * limit;
      NextPage(ranking, lo, limit);
    }
  }

  lemma NextPage<T>(ranking: seq<T>, lo: nat, limit: nat)
    ensures (if lo <= |ranking| then ranking[..lo] else ranking) + Slice(ranking, lo, lo + limit)
         == if lo + limit <= |ranking| then ranking[..lo + limit] else ranking
  {
  }
}
