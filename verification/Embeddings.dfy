/** Embedding artifacts, the model pins that gate their promotion, and their shared lifecycle. */
module Embeddings {
  import opened Events
  import opened Ordering
  import opened Outcomes

  datatype Status = Candidate | Active | Superseded | Invalidated

  /** What identifies an embedding space, apart from the version of the visible fields. */
  datatype Space = Space(adapterName: string, adapterVersion: string, modelName: string,
                         modelDigest: Option<string>, dimensions: nat)

  /** The unique key of an embedding row. */
  datatype Key = Key(eventId: int, contentHash: string, producer: string)

  /** Supersession and invalidation each own a pair of columns: when and why.  `scope` is the pin scope
      in the provenance, `promotedUnder` the pin recorded there by a promotion. */
  datatype Embedding = Embedding(key: Key, space: Space, status: Status, scope: string,
                                 promotedUnder: Option<nat>,
                                 superseded: Option<(string, string)>, invalidated: Option<(string, string)>)

  datatype Pin = Pin(scope: string, space: Space, fieldsVersion: string, identity: string, isActive: bool,
                     superseded: Option<(string, string)>)

  /** Rows are never deleted, so the row with id k + 1 is the one at index k. */
  datatype Db = Db(events: set<int>, embeddings: seq<Embedding>, pins: seq<Pin>)

  /** The two digests of artifact governance, and `quoted`, Python's repr of a text. */
  datatype Digests = Digests(contentHash: (string, string) -> string, identity: (Space, string) -> string,
                             quoted: string -> string)

  const FIELDS_VERSION := "1"

  /** An adapter: its space, its producer version, and the length of the vector it returns. */
  datatype Adapter = Adapter(space: Space, producer: string, vectorLength: nat)

  predicate Live(r: Embedding) { r.status == Candidate || r.status == Active }

  function KeyOf(d: Digests, e: Event, a: Adapter): Key {
    Key(e.id, d.contentHash(e.title, e.summary), a.producer)
  }

  // ---------------------------------------------------------------------------
  // Selecting rows
  // ---------------------------------------------------------------------------

  /** The positions of the rows that satisfy `p`, ascending. */
  function Where<T(!new)>(rows: seq<T>, p: T -> bool): (r: seq<nat>)
    ensures forall i :: i in r <==> 0 <= i < |rows| && p(rows[i])
    ensures forall k, l | 0 <= k < l < |r| :: r[k] < r[l]
  {
    if rows == [] then []
    else
      var before := Where(rows[..|rows| - 1], p);
      assert forall k | 0 <= k < |before| :: before[k] in before;
      if p(rows[|rows| - 1]) then before + [|rows| - 1] else before
  }

  /** `SELECT ... ORDER BY id DESC LIMIT 1` */
  function Newest<T(!new)>(rows: seq<T>, p: T -> bool): (r: Option<nat>)
    ensures r.Some? ==> r.value < |rows| && p(rows[r.value]) && forall i | r.value < i < |rows| :: !p(rows[i])
    ensures r.None? ==> forall i | 0 <= i < |rows| :: !p(rows[i])
  {
    var all := Where(rows, p);
    if all == [] then None else
      assert all[|all| - 1] in all;
      Some(all[|all| - 1])
  }

  function ActivePin(db: Db, scope: string): Option<nat> {
    Newest(db.pins, (p: Pin) => p.scope == scope && p.isActive)
  }

  // ---------------------------------------------------------------------------
  // Operations
  // ---------------------------------------------------------------------------

  datatype Op =
    | AddEvent(eventId: int)
    | Embed(event: Event, adapter: Adapter, scope: string)
    | Promote(embeddingId: int, reason: string, operator: string, now: string)
    | InvalidateStale(event: Event, now: string)
    | CreatePin(scope: string, space: Space, pinnedBy: string, now: string)
    | SupersedePin(pinId: int, reason: string, now: string)

  predicate HasLive(db: Db, key: Key) {
    exists i | 0 <= i < |db.embeddings| :: db.embeddings[i].key == key && Live(db.embeddings[i])
  }

  predicate HasRow(db: Db, key: Key) {
    exists i | 0 <= i < |db.embeddings| :: db.embeddings[i].key == key
  }

  /** The error `embed_event` ends in, if any.  The unique key covers terminal rows too, although only
      live rows are looked up before the insert. */
  function EmbedRefusal(db: Db, d: Digests, e: Event, a: Adapter): Option<Error> {
    if a.vectorLength != a.space.dimensions then Some(ValueError)
    else if HasLive(db, KeyOf(d, e, a)) then None
    else if HasRow(db, KeyOf(d, e, a)) || e.id !in db.events then Some(IntegrityError)
    else None
  }

  function Embedded(db: Db, d: Digests, e: Event, a: Adapter, scope: string): Db {
    if HasLive(db, KeyOf(d, e, a)) then db
    else db.(embeddings := db.embeddings + [Embedding(KeyOf(d, e, a), a.space, Candidate, scope, None, None, None)])
  }

  predicate ValidPosition(db: Db, id: int) { 1 <= id <= |db.embeddings| }

  function PromoteRefusal(db: Db, d: Digests, id: int, reason: string, operator: string): Option<Error> {
    if Blank(reason) || Blank(operator) then Some(ValueError)
    else if !ValidPosition(db, id) || db.embeddings[id - 1].status != Candidate then Some(GovernanceInvalidationError)
    else
      var row := db.embeddings[id - 1];
      var pin := ActivePin(db, row.scope);
      if pin.None? then Some(GovernancePinError)
      else if d.identity(row.space, db.pins[pin.value].fieldsVersion) != db.pins[pin.value].identity
      then Some(GovernancePinError)
      else None
  }

  function PromotionReason(id: nat): string { "superseded by promotion of embedding_id=" + Decimal(id) }

  function StaleReason(previous: string, current: string): string {
    "content_hash changed: " + previous + " \U{2192} " + current
  }

  function NewPinReason(d: Digests, pinnedBy: string): string {
    "superseded by new pin created by " + d.quoted(pinnedBy)
  }

  predicate ActiveFor(r: Embedding, eventId: int) { r.key.eventId == eventId && r.status == Active }

  function Retired(r: Embedding, id: nat, now: string): Embedding {
    r.(status := Superseded, superseded := Some((now, PromotionReason(id))))
  }

  function Promoted(db: Db, id: int, now: string): Db
    requires ValidPosition(db, id) && ActivePin(db, db.embeddings[id - 1].scope).Some?
  {
    var row := db.embeddings[id - 1];
    var pin := ActivePin(db, row.scope).value + 1;
    db.(embeddings := seq(|db.embeddings|, i requires 0 <= i < |db.embeddings| =>
          if i == id - 1 then row.(status := Active, promotedUnder := Some(pin))
          else if ActiveFor(db.embeddings[i], row.key.eventId) then Retired(db.embeddings[i], id, now)
          else db.embeddings[i]))
  }

  /** The pin in force: the newest active one of the scope. */
  ghost predicate InForce(pins: seq<Pin>, scope: string, k: nat) {
    && k < |pins| && pins[k].scope == scope && pins[k].isActive
    && forall i | k < i < |pins| :: pins[i].scope != scope || !pins[i].isActive
  }

  /** A promotion is accepted exactly for a candidate row whose scope has a pin in force with the identity
      that the row's space has under the pin's version of the visible fields. */
  lemma PromotionAcceptedIff(db: Db, d: Digests, id: int, reason: string, operator: string)
    ensures PromoteRefusal(db, d, id, reason, operator).None? <==>
              && !Blank(reason) && !Blank(operator)
              && 1 <= id <= |db.embeddings| && db.embeddings[id - 1].status == Candidate
              && IsPinned(db.pins, d, db.embeddings[id - 1])
  {
    hide Blank, Where, IsPinned;
    if 1 <= id <= |db.embeddings| { PinnedIff(db, d, db.embeddings[id - 1]); }
  }

  /** The row's scope has a pin in force, and its identity is that of the row's space. */
  ghost predicate IsPinned(pins: seq<Pin>, d: Digests, row: Embedding) {
    exists k: nat ::
      InForce(pins, row.scope, k) && pins[k].identity == d.identity(row.space, pins[k].fieldsVersion)
  }

  ghost predicate ActivatedUnder(pins: seq<Pin>, row: Embedding, after: Embedding) {
    exists k: nat :: InForce(pins, row.scope, k) && after == row.(status := Active, promotedUnder := Some(k + 1))
  }

  lemma PinnedIff(db: Db, d: Digests, row: Embedding)
    ensures var pin := ActivePin(db, row.scope);
            && (pin.Some? ==> InForce(db.pins, row.scope, pin.value))
            && (IsPinned(db.pins, d, row) <==>
                  pin.Some? && db.pins[pin.value].identity == d.identity(row.space, db.pins[pin.value].fieldsVersion))
  {
    hide Where;
    var pin := ActivePin(db, row.scope);
    if pin.Some? { assert InForce(db.pins, row.scope, pin.value); }
  }

  /** A promotion makes the row active under the pin in force, supersedes the event's active rows with the
      promoted id in the reason, and touches nothing else. */
  ghost predicate Promotes(before: Db, after: Db, id: int, now: string) {
    && 1 <= id <= |before.embeddings| == |after.embeddings|
    && after.pins == before.pins && after.events == before.events
    && ActivatedUnder(before.pins, before.embeddings[id - 1], after.embeddings[id - 1])
    && forall i | 0 <= i < |before.embeddings| && i != id - 1 ::
         var row := before.embeddings[i];
         if row.status == Active && row.key.eventId == before.embeddings[id - 1].key.eventId
         then after.embeddings[i]
              == row.(status := Superseded,
                      superseded := Some((now, "superseded by promotion of embedding_id=" + Decimal(id))))
         else after.embeddings[i] == row
  }

  lemma PromotedPromotes(db: Db, id: int, now: string)
    requires ValidPosition(db, id) && ActivePin(db, db.embeddings[id - 1].scope).Some?
    ensures Promotes(db, Promoted(db, id, now), id, now)
  {
    hide Where, Decimal;
    var row := db.embeddings[id - 1];
    assert InForce(db.pins, row.scope, ActivePin(db, row.scope).value);
  }

  /** The pins of the scope that were in force are superseded, and one new pin is active. */
  ghost predicate PinsAnew(before: Db, after: Db, d: Digests, scope: string, space: Space, pinnedBy: string,
                           now: string) {
    && after.embeddings == before.embeddings && after.events == before.events
    && |after.pins| == |before.pins| + 1
    && after.pins[|before.pins|] == Pin(scope, space, "1", d.identity(space, "1"), true, None)
    && forall i | 0 <= i < |before.pins| ::
         if before.pins[i].scope == scope && before.pins[i].isActive
         then after.pins[i]
              == before.pins[i].(isActive := false,
                                 superseded := Some((now, "superseded by new pin created by " + d.quoted(pinnedBy))))
         else after.pins[i] == before.pins[i]
  }

  lemma PinnedPinsAnew(db: Db, d: Digests, scope: string, space: Space, pinnedBy: string, now: string)
    ensures PinsAnew(db, Pinned(db, d, scope, space, pinnedBy, now), d, scope, space, pinnedBy, now)
  {
  }

  /** Embedding adds one candidate row for the text, unless a live row has it already; the text's hash, the
      event and the producer are what makes it the same. */
  ghost predicate EmbedsText(before: Db, after: Db, d: Digests, e: Event, a: Adapter, scope: string) {
    if exists i | 0 <= i < |before.embeddings| ::
         && before.embeddings[i].status in {Candidate, Active}
         && before.embeddings[i].key == Key(e.id, d.contentHash(e.title, e.summary), a.producer)
    then after == before
    else after == before.(embeddings := before.embeddings + [
                            Embedding(Key(e.id, d.contentHash(e.title, e.summary), a.producer), a.space, Candidate,
                                      scope, None, None, None)])
  }

  lemma EmbeddedEmbedsText(db: Db, d: Digests, e: Event, a: Adapter, scope: string)
    ensures EmbedsText(db, Embedded(db, d, e, a, scope), d, e, a, scope)
  {
  }

  /** A pin is superseded on request exactly when it exists and is active, and no other pin changes. */
  lemma PinSupersededIff(db: Db, d: Digests, id: int, reason: string, now: string)
    ensures var after := Step(db, d, Op.SupersedePin(id, reason, now));
            if 0 < id <= |db.pins| && db.pins[id - 1].isActive
            then && after.embeddings == db.embeddings && after.events == db.events && |after.pins| == |db.pins|
                 && after.pins[id - 1] == db.pins[id - 1].(isActive := false, superseded := Some((now, reason)))
                 && forall i | 0 <= i < |db.pins| && i != id - 1 :: after.pins[i] == db.pins[i]
            else after == db
  {
  }

  /** A live row of the event that was computed from other text. */
  predicate Stale(r: Embedding, eventId: int, hash: string) {
    r.key.eventId == eventId && Live(r) && r.key.contentHash != hash
  }

  function Dropped(r: Embedding, hash: string, now: string): Embedding {
    r.(status := Invalidated, invalidated := Some((now, StaleReason(r.key.contentHash, hash))))
  }

  function WithoutStale(db: Db, eventId: int, hash: string, now: string): Db {
    db.(embeddings := seq(|db.embeddings|, i requires 0 <= i < |db.embeddings| =>
          if Stale(db.embeddings[i], eventId, hash) then Dropped(db.embeddings[i], hash, now) else db.embeddings[i]))
  }

  /** The row is live, of this event, and was computed from other text. */
  ghost predicate IsOutdated(r: Embedding, eventId: int, hash: string) {
    r.key.eventId == eventId && r.status in {Candidate, Active} && r.key.contentHash != hash
  }

  /** Exactly the outdated rows are invalidated, with both hashes in the reason; all others stay. */
  ghost predicate DropsOutdated(before: seq<Embedding>, after: seq<Embedding>, eventId: int, hash: string,
                                now: string) {
    |after| == |before| &&
    forall i | 0 <= i < |before| ::
      if IsOutdated(before[i], eventId, hash)
      then after[i] == before[i].(status := Invalidated,
                                  invalidated := Some((now, "content_hash changed: " + before[i].key.contentHash
                                                            + " \U{2192} " + hash)))
      else after[i] == before[i]
  }

  ghost function Outdated(rows: seq<Embedding>, eventId: int, hash: string): set<nat> {
    set i: nat | i < |rows| && IsOutdated(rows[i], eventId, hash)
  }

  lemma WithoutStaleDrops(db: Db, eventId: int, hash: string, now: string)
    ensures DropsOutdated(db.embeddings, WithoutStale(db, eventId, hash, now).embeddings, eventId, hash, now)
    ensures WithoutStale(db, eventId, hash, now) == db <==> Outdated(db.embeddings, eventId, hash) == {}
  {
    var after := WithoutStale(db, eventId, hash, now);
    if Outdated(db.embeddings, eventId, hash) == {} {
      forall i | 0 <= i < |db.embeddings|
        ensures after.embeddings[i] == db.embeddings[i]
      {
        assert i !in Outdated(db.embeddings, eventId, hash);
      }
      assert after.embeddings == db.embeddings;
    } else {
      var i :| i in Outdated(db.embeddings, eventId, hash);
      assert after.embeddings[i].status == Invalidated;
    }
  }

  lemma StaleCount(rows: seq<Embedding>, eventId: int, hash: string)
    ensures |Where(rows, (r: Embedding) => Stale(r, eventId, hash))| == |Outdated(rows, eventId, hash)|
  {
    hide Where;
    SameSize(Where(rows, (r: Embedding) => Stale(r, eventId, hash)), Outdated(rows, eventId, hash));
  }

  function RetiredPin(p: Pin, reason: string, now: string): Pin {
    p.(isActive := false, superseded := Some((now, reason)))
  }

  predicate ActiveIn(p: Pin, scope: string) { p.scope == scope && p.isActive }

  function Pinned(db: Db, d: Digests, scope: string, space: Space, pinnedBy: string, now: string): Db {
    db.(pins := seq(|db.pins|, i requires 0 <= i < |db.pins| =>
                  if ActiveIn(db.pins[i], scope) then RetiredPin(db.pins[i], NewPinReason(d, pinnedBy), now)
                  else db.pins[i])
                + [Pin(scope, space, FIELDS_VERSION, d.identity(space, FIELDS_VERSION), true, None)])
  }

  predicate CanSupersedePin(db: Db, id: int) { 1 <= id <= |db.pins| && db.pins[id - 1].isActive }

  function Step(db: Db, d: Digests, op: Op): Db {
    match op
    case AddEvent(id) => db.(events := db.events + {id})
    case Embed(e, a, scope) =>
      if EmbedRefusal(db, d, e, a).Some? then db else Embedded(db, d, e, a, scope)
    case Promote(id, reason, operator, now) =>
      if PromoteRefusal(db, d, id, reason, operator).Some? then db else Promoted(db, id, now)
    case InvalidateStale(e, now) => WithoutStale(db, e.id, d.contentHash(e.title, e.summary), now)
    case CreatePin(scope, space, pinnedBy, now) => Pinned(db, d, scope, space, pinnedBy, now)
    case SupersedePin(id, reason, now) =>
      if CanSupersedePin(db, id) then db.(pins := db.pins[id - 1 := RetiredPin(db.pins[id - 1], reason, now)]) else db
  }

  function Run(db: Db, d: Digests, ops: seq<Op>): Db {
    if ops == [] then db else Step(Run(db, d, ops[..|ops| - 1]), d, ops[|ops| - 1])
  }

  const EMPTY: Db := Db({}, [], [])

  // ---------------------------------------------------------------------------
  // The store
  // ---------------------------------------------------------------------------

  class EmbeddingStore {
    const digests: Digests
    var events: set<int>
    var embeddings: seq<Embedding>
    var pins: seq<Pin>

    function Contents(): Db
      reads this
    {
      Db(events, embeddings, pins)
    }

    constructor (d: Digests)
      ensures Contents() == EMPTY && digests == d
    {
      digests, events, embeddings, pins := d, {}, [], [];
    }

    /** `mark_active` */
    method MarkActive(k: int) returns (ok: bool)
      modifies this`embeddings
      ensures ok <==> 0 <= k < |old(embeddings)| && old(embeddings)[k].status == Candidate
      ensures embeddings == if ok then old(embeddings)[k := old(embeddings)[k].(status := Active)] else old(embeddings)
    {
      if !(0 <= k < |embeddings|) || embeddings[k].status != Candidate { return false; }
      embeddings := embeddings[k := embeddings[k].(status := Active)];
      return true;
    }

    /** `mark_invalidated` */
    method MarkInvalidated(k: int, reason: string, now: string) returns (ok: bool)
      modifies this`embeddings
      ensures ok <==> 0 <= k < |old(embeddings)| && Live(old(embeddings)[k])
      ensures embeddings ==
                if ok
                then var row := old(embeddings)[k];
                     old(embeddings)[k := row.(status := Invalidated, invalidated := Some((now, reason)))]
                else old(embeddings)
    {
      if !(0 <= k < |embeddings|) || !Live(embeddings[k]) { return false; }
      embeddings := embeddings[k := embeddings[k].(status := Invalidated, invalidated := Some((now, reason)))];
      return true;
    }

    /** `mark_superseded` */
    method MarkSuperseded(k: int, reason: string, now: string) returns (ok: bool)
      modifies this`embeddings
      ensures ok <==> 0 <= k < |old(embeddings)| && old(embeddings)[k].status == Active
      ensures embeddings ==
                if ok
                then var row := old(embeddings)[k];
                     old(embeddings)[k := row.(status := Superseded, superseded := Some((now, reason)))]
                else old(embeddings)
    {
      if !(0 <= k < |embeddings|) || embeddings[k].status != Active { return false; }
      embeddings := embeddings[k := embeddings[k].(status := Superseded, superseded := Some((now, reason)))];
      return true;
    }

    /** `embed_event` returns the id of the live row with this key, an existing one or a new candidate. */
    method EmbedEvent(e: Event, a: Adapter, scope: string) returns (r: Result<int>)
      modifies this
      ensures var refusal := EmbedRefusal(old(Contents()), digests, e, a);
              if refusal.Some? then Contents() == old(Contents()) && r == Err(refusal.value)
              else && Contents() == Embedded(old(Contents()), digests, e, a, scope) && r.Ok?
                   && EmbedsText(old(Contents()), Contents(), digests, e, a, scope)
                   && ValidPosition(Contents(), r.value)
                   && embeddings[r.value - 1].key == KeyOf(digests, e, a) && Live(embeddings[r.value - 1])
    {
      hide EmbedsText;
      EmbeddedEmbedsText(Contents(), digests, e, a, scope);
      var key := KeyOf(digests, e, a);
      if a.vectorLength != a.space.dimensions { return Err(ValueError); }
      var existing := Newest(embeddings, (r: Embedding) => r.key == key && Live(r));
      if existing.Some? { return Ok(existing.value + 1); }
      if HasRow(Contents(), key) || e.id !in events { return Err(IntegrityError); }
      embeddings := embeddings + [Embedding(key, a.space, Candidate, scope, None, None, None)];
      return Ok(|embeddings|);
    }

    /** `promote_embedding`: the loop supersedes every active row of the event, then the candidate is
        marked active; none of these transitions can be refused. */
    method PromoteEmbedding(id: int, reason: string, operator: string, now: string) returns (r: Result<Embedding>)
      modifies this
      ensures var refusal := PromoteRefusal(old(Contents()), digests, id, reason, operator);
              if refusal.Some? then Contents() == old(Contents()) && r == Err(refusal.value)
              else && Contents() == Promoted(old(Contents()), id, now) && r == Ok(embeddings[id - 1])
                   && Promotes(old(Contents()), Contents(), id, now)
    {
      hide Blank, Where, Promotes;
      if Blank(reason) || Blank(operator) { return Err(ValueError); }
      if !ValidPosition(Contents(), id) { return Err(GovernanceInvalidationError); }
      var candidate := embeddings[id - 1];
      if candidate.status != Candidate { return Err(GovernanceInvalidationError); }
      var pin := ActivePin(Contents(), candidate.scope);
      if pin.None? { return Err(GovernancePinError); }
      var active := pins[pin.value];
      if digests.identity(candidate.space, active.fieldsVersion) != active.identity { return Err(GovernancePinError); }
      PromotedPromotes(Contents(), id, now);
      ghost var before := embeddings;
      var previous := Where(embeddings, (r: Embedding) => ActiveFor(r, candidate.key.eventId));
      for n := 0 to |previous|
        invariant |embeddings| == |before| && pins == old(pins) && events == old(events)
        invariant forall i | 0 <= i < |before| ::
                    embeddings[i] == if i in previous[..n] then Retired(before[i], id, now) else before[i]
      {
        var k := previous[n];
        assert k in previous;
        assert k !in previous[..n];
        assert previous[..n + 1] == previous[..n] + [k];
        var ok := MarkSuperseded(k, PromotionReason(id), now);
        assert ok;
      }
      assert previous[..|previous|] == previous;
      assert id - 1 !in previous;
      var ok := MarkActive(id - 1);
      assert ok;
      embeddings := embeddings[id - 1 := embeddings[id - 1].(promotedUnder := Some(pin.value + 1))];
      assert embeddings == Promoted(old(Contents()), id, now).embeddings;
      return Ok(embeddings[id - 1]);
    }

    /** `invalidate_stale_embeddings`: how many rows it invalidated. */
    method InvalidateStaleEmbeddings(e: Event, now: string) returns (count: nat)
      modifies this
      ensures var hash := digests.contentHash(e.title, e.summary);
              && Contents() == WithoutStale(old(Contents()), e.id, hash, now)
              && DropsOutdated(old(embeddings), embeddings, e.id, hash, now)
              && count == |Outdated(old(embeddings), e.id, hash)| && (count == 0 <==> Contents() == old(Contents()))
    {
      hide Where, Outdated, DropsOutdated;
      WithoutStaleDrops(Contents(), e.id, digests.contentHash(e.title, e.summary), now);
      StaleCount(embeddings, e.id, digests.contentHash(e.title, e.summary));
      var hash := digests.contentHash(e.title, e.summary);
      ghost var before := embeddings;
      var stale := Where(embeddings, (r: Embedding) => Stale(r, e.id, hash));
      count := 0;
      for n := 0 to |stale|
        invariant count == n && |embeddings| == |before| && pins == old(pins) && events == old(events)
        invariant forall i | 0 <= i < |before| ::
                    embeddings[i] == if i in stale[..n] then Dropped(before[i], hash, now) else before[i]
      {
        var k := stale[n];
        assert k in stale;
        assert k !in stale[..n];
        assert stale[..n + 1] == stale[..n] + [k];
        var ok := MarkInvalidated(k, StaleReason(embeddings[k].key.contentHash, hash), now);
        assert ok;
        count := count + 1;
      }
      assert stale[..|stale|] == stale;
      assert embeddings == WithoutStale(old(Contents()), e.id, hash, now).embeddings;
    }

    /** `create_pin`: the loop supersedes the active pins of the scope, then the new one is inserted. */
    method CreatePin(scope: string, space: Space, pinnedBy: string, now: string) returns (r: Pin)
      modifies this
      ensures Contents() == Pinned(old(Contents()), digests, scope, space, pinnedBy, now) && r == pins[|pins| - 1]
      ensures PinsAnew(old(Contents()), Contents(), digests, scope, space, pinnedBy, now)
    {
      hide Where, PinsAnew;
      PinnedPinsAnew(Contents(), digests, scope, space, pinnedBy, now);
      ghost var before := pins;
      var identity, reason := digests.identity(space, FIELDS_VERSION), NewPinReason(digests, pinnedBy);
      var active := Where(pins, (p: Pin) => ActiveIn(p, scope));
      for n := 0 to |active|
        invariant |pins| == |before| && embeddings == old(embeddings) && events == old(events)
        invariant forall i | 0 <= i < |before| ::
                    pins[i] == if i in active[..n] then RetiredPin(before[i], reason, now) else before[i]
      {
        var k := active[n];
        assert k in active;
        assert k !in active[..n];
        assert active[..n + 1] == active[..n] + [k];
        pins := pins[k := RetiredPin(pins[k], reason, now)];
      }
      assert active[..|active|] == active;
      pins := pins + [Pin(scope, space, FIELDS_VERSION, identity, true, None)];
      assert pins == Pinned(old(Contents()), digests, scope, space, pinnedBy, now).pins;
      return pins[|pins| - 1];
    }

    method SupersedePin(id: int, reason: string, now: string) returns (r: Result<Pin>)
      modifies this
      ensures Contents() == Step(old(Contents()), digests, Op.SupersedePin(id, reason, now))
      ensures r == if CanSupersedePin(old(Contents()), id) then Ok(pins[id - 1]) else Err(ValueError)
    {
      if !(1 <= id <= |pins|) { return Err(ValueError); }
      if !pins[id - 1].isActive { return Err(ValueError); }
      pins := pins[id - 1 := RetiredPin(pins[id - 1], reason, now)];
      return Ok(pins[id - 1]);
    }
  }

  // ---------------------------------------------------------------------------
  // Every interleaving
  // ---------------------------------------------------------------------------

  ghost predicate KeysUnique(rows: seq<Embedding>) {
    forall i, j | 0 <= i < j < |rows| :: rows[i].key != rows[j].key
  }

  ghost predicate OneActive(rows: seq<Embedding>) {
    forall i, j | 0 <= i < j < |rows| ::
      !(rows[i].key.eventId == rows[j].key.eventId && rows[i].status == Active && rows[j].status == Active)
  }

  ghost predicate OneActivePin(pins: seq<Pin>) {
    forall i, j | 0 <= i < j < |pins| :: !(pins[i].scope == pins[j].scope && pins[i].isActive && pins[j].isActive)
  }

  ghost predicate PinOk(d: Digests, p: Pin) {
    p.identity == d.identity(p.space, p.fieldsVersion) && (p.isActive <==> p.superseded.None?)
  }

  /** Status and column pairs agree, and a promotion happened under a matching pin of the row's scope. */
  ghost predicate RowOk(db: Db, d: Digests, r: Embedding) {
    && r.key.eventId in db.events
    && (r.status == Superseded <==> r.superseded.Some?)
    && (r.status == Invalidated <==> r.invalidated.Some?)
    && (r.status in {Active, Superseded} ==> r.promotedUnder.Some?)
    && (r.status == Candidate ==> r.promotedUnder.None?)
    && (r.promotedUnder.Some? ==>
          && 1 <= r.promotedUnder.value <= |db.pins|
          && var p := db.pins[r.promotedUnder.value - 1];
             p.scope == r.scope && p.identity == d.identity(r.space, p.fieldsVersion))
  }

  ghost predicate Governed(db: Db, d: Digests) {
    && KeysUnique(db.embeddings) && OneActive(db.embeddings) && OneActivePin(db.pins)
    && (forall i | 0 <= i < |db.embeddings| :: RowOk(db, d, db.embeddings[i]))
    && (forall i | 0 <= i < |db.pins| :: PinOk(d, db.pins[i]))
  }

  lemma EmbedKeepsGoverned(db: Db, d: Digests, e: Event, a: Adapter, scope: string)
    requires Governed(db, d) && EmbedRefusal(db, d, e, a).None?
    ensures Governed(Embedded(db, d, e, a, scope), d)
  {
    hide OneActivePin, PinOk;
    var next := Embedded(db, d, e, a, scope);
    forall i | 0 <= i < |next.embeddings|
      ensures RowOk(next, d, next.embeddings[i])
    {
      if i < |db.embeddings| { assert RowOk(db, d, db.embeddings[i]); }
    }
  }

  lemma PromoteKeepsGoverned(db: Db, d: Digests, id: int, reason: string, operator: string, now: string)
    requires Governed(db, d) && PromoteRefusal(db, d, id, reason, operator).None?
    ensures Governed(Promoted(db, id, now), d)
  {
    hide OneActivePin, PinOk, Blank, Where;
    var next := Promoted(db, id, now);
    forall i | 0 <= i < |next.embeddings|
      ensures RowOk(next, d, next.embeddings[i])
    {
      assert RowOk(db, d, db.embeddings[i]);
    }
  }

  lemma StaleKeepsGoverned(db: Db, d: Digests, eventId: int, hash: string, now: string)
    requires Governed(db, d)
    ensures Governed(WithoutStale(db, eventId, hash, now), d)
  {
    hide OneActivePin, PinOk;
    var next := WithoutStale(db, eventId, hash, now);
    forall i | 0 <= i < |next.embeddings|
      ensures RowOk(next, d, next.embeddings[i])
    {
      assert RowOk(db, d, db.embeddings[i]);
    }
  }

  lemma PinsKeepGoverned(db: Db, d: Digests, next: Db)
    requires Governed(db, d) && next.embeddings == db.embeddings && db.events <= next.events
    requires |db.pins| <= |next.pins| && OneActivePin(next.pins)
    requires forall i | 0 <= i < |next.pins| :: PinOk(d, next.pins[i])
    requires forall i | 0 <= i < |db.pins| ::
               next.pins[i].(isActive := db.pins[i].isActive, superseded := db.pins[i].superseded) == db.pins[i]
    ensures Governed(next, d)
  {
    hide KeysUnique, OneActive, OneActivePin, PinOk;
    forall i | 0 <= i < |next.embeddings|
      ensures RowOk(next, d, next.embeddings[i])
    {
      assert RowOk(db, d, db.embeddings[i]);
    }
  }

  lemma StepKeepsGoverned(db: Db, d: Digests, op: Op)
    requires Governed(db, d)
    ensures Governed(Step(db, d, op), d)
  {
    hide KeysUnique, OneActive, RowOk, EmbedRefusal, PromoteRefusal, Embedded, Promoted, WithoutStale, ActivePin, Where;
    match op
    case AddEvent(id) =>
      PinsKeepGoverned(db, d, Step(db, d, op));
    case Embed(e, a, scope) =>
      if EmbedRefusal(db, d, e, a).None? { EmbedKeepsGoverned(db, d, e, a, scope); }
    case Promote(id, reason, operator, now) =>
      if PromoteRefusal(db, d, id, reason, operator).None? { PromoteKeepsGoverned(db, d, id, reason, operator, now); }
    case InvalidateStale(e, now) =>
      StaleKeepsGoverned(db, d, e.id, d.contentHash(e.title, e.summary), now);
    case CreatePin(scope, space, pinnedBy, now) =>
      PinsKeepGoverned(db, d, Pinned(db, d, scope, space, pinnedBy, now));
    case SupersedePin(id, reason, now) =>
      PinsKeepGoverned(db, d, Step(db, d, op));
  }

  /** Under every interleaving of embedding, promotion, invalidation and pinning: at most one row per
      key, one active row per event, one active pin per scope, and no promotion without a matching pin. */
  lemma {:induction false} ReachableIsGoverned(d: Digests, ops: seq<Op>)
    ensures Governed(Run(EMPTY, d, ops), d)
  {
    hide Step;
    if ops != [] {
      ReachableIsGoverned(d, ops[..|ops| - 1]);
      StepKeepsGoverned(Run(EMPTY, d, ops[..|ops| - 1]), d, ops[|ops| - 1]);
    }
  }

  predicate Terminal(s: Status) { s == Superseded || s == Invalidated }

  /** What a step may do to an existing row. */
  ghost predicate RowFollows(a: Embedding, b: Embedding) {
    && b.key == a.key && b.space == a.space && b.scope == a.scope
    && (Terminal(a.status) ==> b == a)
    && (a.status == Active ==> b.status != Candidate && b.promotedUnder == a.promotedUnder)
  }

  ghost predicate RowsFollow(a: seq<Embedding>, b: seq<Embedding>) {
    |a| <= |b| && forall i | 0 <= i < |a| :: RowFollows(a[i], b[i])
  }

  lemma StepFollows(db: Db, d: Digests, op: Op)
    ensures RowsFollow(db.embeddings, Step(db, d, op).embeddings)
  {
    hide EmbedRefusal, ActivePin, Where, Blank;
  }

  /** Terminal rows never change, and no row is removed or given another key. */
  lemma {:induction false} RowsAreFrozen(db: Db, d: Digests, ops: seq<Op>)
    ensures RowsFollow(db.embeddings, Run(db, d, ops).embeddings)
  {
    hide Step;
    if ops != [] {
      RowsAreFrozen(db, d, ops[..|ops| - 1]);
      StepFollows(Run(db, d, ops[..|ops| - 1]), d, ops[|ops| - 1]);
    }
  }

  /** After stale rows are invalidated, every live row of the event has the current hash; and exactly the
      live rows with another hash were invalidated. */
  lemma LiveRowsAreCurrent(db: Db, eventId: int, hash: string, now: string, i: nat)
    requires i < |db.embeddings|
    ensures var r := WithoutStale(db, eventId, hash, now).embeddings[i];
            && (r.key.eventId == eventId && Live(r) ==> r.key.contentHash == hash)
            && (r != db.embeddings[i] ==> r.status == Invalidated && Stale(db.embeddings[i], eventId, hash))
            && (Stale(db.embeddings[i], eventId, hash) ==> !Live(r))
  {
  }

  /** Every live row of the event was computed from the text with this hash. */
  ghost predicate AllCurrent(db: Db, eventId: int, hash: string) {
    forall i | 0 <= i < |db.embeddings| ::
      db.embeddings[i].key.eventId == eventId && Live(db.embeddings[i]) ==> db.embeddings[i].key.contentHash == hash
  }

  /** The op does not embed the event with another text. */
  predicate SameText(d: Digests, op: Op, eventId: int, hash: string) {
    op.Embed? && op.event.id == eventId ==> d.contentHash(op.event.title, op.event.summary) == hash
  }

  lemma StepKeepsCurrent(db: Db, d: Digests, op: Op, eventId: int, hash: string)
    requires AllCurrent(db, eventId, hash) && SameText(d, op, eventId, hash)
    ensures AllCurrent(Step(db, d, op), eventId, hash)
  {
    hide ActivePin, Where, Blank, EmbedRefusal;
    if op.Promote? && PromoteRefusal(db, d, op.embeddingId, op.reason, op.operator).None? {
      assert db.embeddings[op.embeddingId - 1].status == Candidate;
    }
  }

  lemma {:induction false} RunKeepsCurrent(db: Db, d: Digests, ops: seq<Op>, eventId: int, hash: string)
    requires AllCurrent(db, eventId, hash) && forall op | op in ops :: SameText(d, op, eventId, hash)
    ensures AllCurrent(Run(db, d, ops), eventId, hash)
  {
    hide Step, SameText, AllCurrent;
    if ops != [] {
      RunKeepsCurrent(db, d, ops[..|ops| - 1], eventId, hash);
      StepKeepsCurrent(Run(db, d, ops[..|ops| - 1]), d, ops[|ops| - 1], eventId, hash);
    }
  }

  /** Invalidating stale rows lasts: until the event is embedded with another text, whatever else
      happens, every live row of it has the hash it had then. */
  lemma InvalidationLasts(db: Db, d: Digests, e: Event, now: string, ops: seq<Op>)
    requires forall op | op in ops :: SameText(d, op, e.id, d.contentHash(e.title, e.summary))
    ensures AllCurrent(Run(Step(db, d, Op.InvalidateStale(e, now)), d, ops), e.id, d.contentHash(e.title, e.summary))
  {
    hide Run, SameText;
    var hash := d.contentHash(e.title, e.summary);
    var after := Step(db, d, Op.InvalidateStale(e, now));
    forall i | 0 <= i < |after.embeddings|
      ensures after.embeddings[i].key.eventId == e.id && Live(after.embeddings[i]) ==>
                after.embeddings[i].key.contentHash == hash
    {
      LiveRowsAreCurrent(db, e.id, hash, now, i);
    }
    RunKeepsCurrent(after, d, ops, e.id, hash);
  }

  /** Embedding the same text with the same producer again changes nothing. */
  lemma EmbedIsIdempotent(db: Db, d: Digests, e: Event, a: Adapter, scope: string, other: string)
    requires EmbedRefusal(db, d, e, a).None?
    ensures var next := Embedded(db, d, e, a, scope);
            EmbedRefusal(next, d, e, a).None? && Embedded(next, d, e, a, other) == next
  {
    var next := Embedded(db, d, e, a, scope);
    if !HasLive(db, KeyOf(d, e, a)) {
      assert next.embeddings[|db.embeddings|].key == KeyOf(d, e, a) && Live(next.embeddings[|db.embeddings|]);
    }
  }

  /** A key is spent once its row is terminal: whatever happens later, embedding with it fails on the
      unique constraint, although no live row has it. */
  lemma SpentKeyFailsForever(d: Digests, before: seq<Op>, ops: seq<Op>, i: nat, e: Event, a: Adapter)
    requires i < |Run(EMPTY, d, before).embeddings|
    requires var r := Run(EMPTY, d, before).embeddings[i]; Terminal(r.status) && r.key == KeyOf(d, e, a)
    requires a.vectorLength == a.space.dimensions
    ensures EmbedRefusal(Run(Run(EMPTY, d, before), d, ops), d, e, a) == Some(IntegrityError)
  {
    hide RowOk, PinOk, OneActive, OneActivePin, Step, Run;
    var db := Run(EMPTY, d, before);
    RowsAreFrozen(db, d, ops);
    RunConcat(EMPTY, d, before, ops);
    ReachableIsGoverned(d, before + ops);
    var later := Run(db, d, ops);
    assert RowFollows(db.embeddings[i], later.embeddings[i]);
    assert later.embeddings[i].key == KeyOf(d, e, a);
    assert KeysUnique(later.embeddings);
  }

  /** In a reachable table, embedding an existing event with a vector of the right length fails exactly
      when a terminal row has the key. */
  lemma EmbedFailsIffSpent(d: Digests, ops: seq<Op>, e: Event, a: Adapter)
    requires e.id in Run(EMPTY, d, ops).events && a.vectorLength == a.space.dimensions
    ensures var db := Run(EMPTY, d, ops);
            EmbedRefusal(db, d, e, a).Some? <==>
              exists i | 0 <= i < |db.embeddings| ::
                db.embeddings[i].key == KeyOf(d, e, a) && Terminal(db.embeddings[i].status)
  {
    hide RowOk, PinOk, OneActive, OneActivePin, Step, Run;
    ReachableIsGoverned(d, ops);
  }

  /** A key gets spent by editing the event's text and invalidating: restoring the text does not help. */
  lemma SpentKeyIsReachable(d: Digests, e: Event, edited: Event, a: Adapter, scope: string, now: string)
    requires edited.id == e.id && d.contentHash(edited.title, edited.summary) != d.contentHash(e.title, e.summary)
    requires a.vectorLength == a.space.dimensions
    ensures var ops := [AddEvent(e.id), Embed(e, a, scope), InvalidateStale(edited, now)];
            var r := Run(EMPTY, d, ops).embeddings;
            |r| == 1 && r[0].key == KeyOf(d, e, a) && Terminal(r[0].status)
  {
    var ops := [AddEvent(e.id), Embed(e, a, scope), InvalidateStale(edited, now)];
    RunOne(EMPTY, d, ops[0]);
    RunConcat(EMPTY, d, [ops[0]], [ops[1]]);
    RunConcat(EMPTY, d, [ops[0]] + [ops[1]], [ops[2]]);
    var added := Step(EMPTY, d, ops[0]);
    RunOne(added, d, ops[1]);
    RunOne(Step(added, d, ops[1]), d, ops[2]);
    assert ops == [ops[0]] + [ops[1]] + [ops[2]];
  }

  lemma RunOne(db: Db, d: Digests, op: Op)
    ensures Run(db, d, [op]) == Step(db, d, op)
  {
    hide Step;
    assert [op][..0] == [];
  }

  lemma {:induction false} RunConcat(db: Db, d: Digests, a: seq<Op>, b: seq<Op>)
    ensures Run(db, d, a + b) == Run(Run(db, d, a), d, b)
  {
    hide Step;
    if b == [] {
      assert a + b == a;
    } else {
      RunConcat(db, d, a, b[..|b| - 1]);
      assert (a + b)[..|a + b| - 1] == a + b[..|b| - 1];
    }
  }
}
