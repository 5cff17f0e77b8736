/** Packing ranked events into a prompt context of bounded size. */
module ContextBuilder {
  import opened Outcomes
  import Events
  import Retrieval

  // ---------------------------------------------------------------------------
  // Sections and entries
  // ---------------------------------------------------------------------------

  datatype Name = Governance | Architecture | Questions | Adaptations | Experiments | Memory

  const SECTION_ORDER: seq<Name> := [Governance, Architecture, Questions, Adaptations, Experiments, Memory]

  function Title(name: Name): string {
    match name
    case Governance => "GOVERNANCE CONTEXT"
    case Architecture => "ARCHITECTURE CONTEXT"
    case Questions => "ACTIVE QUESTIONS"
    case Adaptations => "RECENT ADAPTATIONS"
    case Experiments => "RELATED EXPERIMENTS"
    case Memory => "RELEVANT MEMORY EVENTS"
  }

  function AssignSection(eventType: string): Name {
    match eventType
    case "governance_rule" => Governance
    case "architecture_decision" => Architecture
    case "open_question" => Questions
    case "adaptation" => Adaptations
    case "experiment" => Experiments
    case "hypothesis" => Experiments
    case _ => Memory
  }

  datatype Entry = Entry(event: Events.Event, isExpanded: bool)

  function Join(parts: seq<string>, separator: string): string {
    if |parts| == 0 then ""
    else if |parts| == 1 then parts[0]
    else Join(parts[..|parts| - 1], separator) + separator + parts[|parts| - 1]
  }

  function IntText(n: int): string {
    if n < 0 then "-" + Decimal(-n) else Decimal(n)
  }

  /** `str.upper()` on ASCII */
  function Upper(s: string): string {
    seq(|s|, i requires 0 <= i < |s| => if 'a' <= s[i] <= 'z' then s[i] - 'a' + 'A' else s[i])
  }

  /** The rendered entry: three lines, then evidence, tags and the mark of a related event if present. */
  function Render(e: Entry): string {
    var ev := e.event;
    Join(["[" + IntText(ev.id) + "] " + Upper(ev.eventType) + " | confidence=" + IntText(ev.confidence)
          + " | status=" + ev.status,
          "  Title   : " + ev.title,
          "  Summary : " + ev.summary]
         + (if ev.evidence.Some? && ev.evidence.value != "" then ["  Evidence: " + ev.evidence.value] else [])
         + (if ev.tags != [] then ["  Tags    : " + Join(ev.tags, ", ")] else [])
         + (if e.isExpanded then ["  [related]"] else []),
         "\n")
  }

  /** `char_count() + 4` */
  function Cost(e: Entry): nat { |Render(e)| + 4 }

  function MakeEntry(s: Retrieval.Scored): Entry { Entry(s.event, s.isExpanded) }

  function SectionOf(s: Retrieval.Scored): Name { AssignSection(s.event.eventType) }

  // ---------------------------------------------------------------------------
  // Packing
  // ---------------------------------------------------------------------------

  /** No list, or an empty one, allows every section. */
  predicate Allowed(wanted: Option<seq<string>>, name: Name) {
    wanted.None? || wanted.value == [] || Title(name) in wanted.value
  }

  type Contents = map<Name, seq<Entry>>

  datatype Packing = Packing(contents: Contents, charsUsed: nat, included: nat)

  function Empty(wanted: Option<seq<string>>): Contents {
    map name | name in {Governance, Architecture, Questions, Adaptations, Experiments, Memory} && Allowed(wanted, name)
      :: []
  }

  /** The event is taken when its section is allowed and its entry still fits. */
  predicate Takes(p: Packing, s: Retrieval.Scored, budget: int) {
    SectionOf(s) in p.contents && p.charsUsed + Cost(MakeEntry(s)) <= budget
  }

  function Take(p: Packing, s: Retrieval.Scored): Packing
    requires SectionOf(s) in p.contents
  {
    Packing(p.contents[SectionOf(s) := p.contents[SectionOf(s)] + [MakeEntry(s)]],
            p.charsUsed + Cost(MakeEntry(s)), p.included + 1)
  }

  /** Greedy packing in ranked order. */
  function Pack(events: seq<Retrieval.Scored>, wanted: Option<seq<string>>, budget: int): Packing {
    if events == [] then Packing(Empty(wanted), 0, 0)
    else
      var before := Pack(events[..|events| - 1], wanted, budget);
      var last := events[|events| - 1];
      if Takes(before, last, budget) then Take(before, last) else before
  }

  datatype Section = Section(name: Name, entries: seq<Entry>)

  /** The sections present among the first `n` names, in order. */
  function Ordered(contents: Contents, n: nat): seq<Section>
    requires n <= 6
  {
    if n == 0 then []
    else
      var name := SECTION_ORDER[n - 1];
      Ordered(contents, n - 1) + if name in contents then [Section(name, contents[name])] else []
  }

  datatype Assembled = Assembled(sections: seq<Section>, totalEvents: nat, includedEvents: nat, charBudget: int,
                                 charsUsed: nat)

  function AssembledFrom(p: Packing, total: nat, budget: int): Assembled {
    Assembled(Ordered(p.contents, 6), total, p.included, budget, p.charsUsed)
  }

  /** `build_context` */
  method BuildContext(events: seq<Retrieval.Scored>, budget: int, wanted: Option<seq<string>>) returns (r: Assembled)
    ensures r == AssembledFrom(Pack(events, wanted, budget), |events|, budget)
  {
    hide Render, AssignSection, Allowed;
    var sections := Empty(wanted);
    var charsUsed: nat, included: nat := 0, 0;
    for i := 0 to |events|
      invariant Packing(sections, charsUsed, included) == Pack(events[..i], wanted, budget)
    {
      assert events[..i + 1][..i] == events[..i];
      var name := SectionOf(events[i]);
      if name !in sections { continue; }
      var entry := MakeEntry(events[i]);
      var entryChars := Cost(entry);
      if charsUsed + entryChars > budget { continue; }
      sections := sections[name := sections[name] + [entry]];
      charsUsed := charsUsed + entryChars;
      included := included + 1;
    }
    assert events[..|events|] == events;
    return AssembledFrom(Packing(sections, charsUsed, included), |events|, budget);
  }

  // ---------------------------------------------------------------------------
  // Budget, maximality, order
  // ---------------------------------------------------------------------------

  /** Whether the event at `i` was taken when its turn came. */
  ghost predicate Taken(events: seq<Retrieval.Scored>, wanted: Option<seq<string>>, budget: int, i: nat)
    requires i < |events|
  {
    Takes(Pack(events[..i], wanted, budget), events[i], budget)
  }

  lemma {:induction false} PackGrows(events: seq<Retrieval.Scored>, wanted: Option<seq<string>>, budget: int, i: nat)
    requires i <= |events|
    ensures Pack(events[..i], wanted, budget).charsUsed <= Pack(events, wanted, budget).charsUsed
    ensures Pack(events[..i], wanted, budget).contents.Keys == Pack(events, wanted, budget).contents.Keys
    ensures Pack(events, wanted, budget).contents.Keys == Empty(wanted).Keys
    decreases |events|
  {
    hide Cost, SectionOf, Empty;
    if i < |events| {
      var before := events[..|events| - 1];
      PackGrows(before, wanted, budget, i);
      assert before[..i] == events[..i];
    } else {
      assert events[..i] == events;
      if events != [] { PackGrows(events[..|events| - 1], wanted, budget, |events| - 1); }
    }
  }

  /** The packing stays within a non-negative budget, and takes nothing under a negative one. */
  lemma {:induction false} PackWithinBudget(events: seq<Retrieval.Scored>, wanted: Option<seq<string>>, budget: int)
    ensures var p := Pack(events, wanted, budget);
            && p.charsUsed <= (if budget >= 0 then budget else 0)
            && (p.included == 0 <==> p.charsUsed == 0)
  {
    hide Render, SectionOf;
    if events != [] { PackWithinBudget(events[..|events| - 1], wanted, budget); }
  }

  ghost function TakenPlaces(events: seq<Retrieval.Scored>, wanted: Option<seq<string>>, budget: int, n: nat): set<nat>
    requires n <= |events|
  {
    set i: nat | i < n && Taken(events, wanted, budget, i)
  }

  /** `included_events` is the number of events taken, and 4 characters are charged beside each entry. */
  lemma {:induction false} IncludedAreTaken(events: seq<Retrieval.Scored>, wanted: Option<seq<string>>, budget: int,
                                            n: nat)
    requires n <= |events|
    ensures Pack(events[..n], wanted, budget).included == |TakenPlaces(events, wanted, budget, n)|
  {
    hide Pack, Taken;
    if n == 0 {
      assert TakenPlaces(events, wanted, budget, 0) == {};
      NothingIncluded(events, wanted, budget);
    } else {
      IncludedAreTaken(events, wanted, budget, n - 1);
      IncludedNext(events, wanted, budget, n - 1);
      var before := TakenPlaces(events, wanted, budget, n - 1);
      assert TakenPlaces(events, wanted, budget, n)
          == before + if Taken(events, wanted, budget, n - 1) then {(n - 1) as nat} else {};
    }
  }

  lemma NothingIncluded(events: seq<Retrieval.Scored>, wanted: Option<seq<string>>, budget: int)
    ensures Pack(events[..0], wanted, budget).included == 0
  {
  }

  lemma IncludedNext(events: seq<Retrieval.Scored>, wanted: Option<seq<string>>, budget: int, i: nat)
    requires i < |events|
    ensures Pack(events[..i + 1], wanted, budget).included
         == Pack(events[..i], wanted, budget).included + if Taken(events, wanted, budget, i) then 1 else 0
  {
    hide Cost, SectionOf, Empty;
    assert events[..i + 1][..i] == events[..i];
  }

  /** The packing is maximal: no event of an allowed section that was passed over would fit at the end. */
  lemma PackIsMaximal(events: seq<Retrieval.Scored>, wanted: Option<seq<string>>, budget: int, i: nat)
    requires i < |events| && !Taken(events, wanted, budget, i)
    requires Allowed(wanted, SectionOf(events[i]))
    ensures Pack(events, wanted, budget).charsUsed + Cost(MakeEntry(events[i])) > budget
  {
    hide Cost, SectionOf, Allowed;
    PackGrows(events, wanted, budget, i);
    PackGrows(events[..i], wanted, budget, i);
    assert events[..i][..i] == events[..i];
    AllowedIsPresent(wanted, SectionOf(events[i]));
  }

  lemma AllowedIsPresent(wanted: Option<seq<string>>, name: Name)
    ensures Allowed(wanted, name) <==> name in Empty(wanted)
  {
    hide Allowed;
  }

  /** The entries of one section, in ranked order: those of its taken events. */
  ghost function TakenEntries(events: seq<Retrieval.Scored>, wanted: Option<seq<string>>, budget: int, name: Name,
                              n: nat): seq<Entry>
    requires n <= |events|
  {
    if n == 0 then []
    else
      var before := TakenEntries(events, wanted, budget, name, n - 1);
      if Taken(events, wanted, budget, n - 1) && SectionOf(events[n - 1]) == name
      then before + [MakeEntry(events[n - 1])] else before
  }

  lemma {:induction false} PackKeepsOrder(events: seq<Retrieval.Scored>, wanted: Option<seq<string>>, budget: int,
                                          name: Name, n: nat)
    requires n <= |events| && name in Pack(events[..n], wanted, budget).contents
    ensures Pack(events[..n], wanted, budget).contents[name] == TakenEntries(events, wanted, budget, name, n)
  {
    hide Cost, SectionOf;
    if n > 0 {
      assert events[..n][..n - 1] == events[..n - 1];
      PackGrows(events[..n], wanted, budget, n - 1);
      PackKeepsOrder(events, wanted, budget, name, n - 1);
    }
  }

  // ---------------------------------------------------------------------------
  // What is where
  // ---------------------------------------------------------------------------

  /** The section an event type belongs to; what no other section takes is a memory event. */
  ghost predicate Belongs(eventType: string, name: Name) {
    match name
    case Governance => eventType == "governance_rule"
    case Architecture => eventType == "architecture_decision"
    case Questions => eventType == "open_question"
    case Adaptations => eventType == "adaptation"
    case Experiments => eventType == "experiment" || eventType == "hypothesis"
    case Memory =>
      eventType !in {"governance_rule", "architecture_decision", "open_question", "adaptation", "experiment",
                     "hypothesis"}
  }

  lemma AssignedIsBelongs(eventType: string, name: Name)
    ensures AssignSection(eventType) == name <==> Belongs(eventType, name)
  {
  }

  /** The section is asked for by its heading, or nothing is asked for. */
  ghost predicate AskedFor(wanted: Option<seq<string>>, name: Name) {
    wanted.None? || wanted.value == [] ||
    match name
    case Governance => "GOVERNANCE CONTEXT" in wanted.value
    case Architecture => "ARCHITECTURE CONTEXT" in wanted.value
    case Questions => "ACTIVE QUESTIONS" in wanted.value
    case Adaptations => "RECENT ADAPTATIONS" in wanted.value
    case Experiments => "RELATED EXPERIMENTS" in wanted.value
    case Memory => "RELEVANT MEMORY EVENTS" in wanted.value
  }

  lemma AllowedIsAskedFor(wanted: Option<seq<string>>, name: Name)
    ensures Allowed(wanted, name) <==> AskedFor(wanted, name)
  {
  }

  /** The entry shows one of the events, which belongs to the section. */
  ghost predicate Shows(events: seq<Retrieval.Scored>, name: Name, e: Entry) {
    exists i | 0 <= i < |events| ::
      e.event == events[i].event && e.isExpanded == events[i].isExpanded && Belongs(events[i].event.eventType, name)
  }

  lemma {:induction false} PackedBelong(events: seq<Retrieval.Scored>, wanted: Option<seq<string>>, budget: int,
                                        name: Name, e: Entry)
    requires var p := Pack(events, wanted, budget); name in p.contents && e in p.contents[name]
    ensures Shows(events, name, e)
  {
    hide Cost, AssignSection, Belongs, Empty;
    if events == [] {
      NothingPacked(wanted, name);
    } else {
      var before, last := events[..|events| - 1], events[|events| - 1];
      var p := Pack(before, wanted, budget);
      AssignedIsBelongs(last.event.eventType, name);
      if name in p.contents && e in p.contents[name] {
        PackedBelong(before, wanted, budget, name, e);
        var i :| 0 <= i < |before| && e.event == before[i].event && e.isExpanded == before[i].isExpanded
                 && Belongs(before[i].event.eventType, name);
        assert events[i] == before[i];
      } else {
        assert e == MakeEntry(last) && events[|events| - 1] == last;
      }
    }
  }

  lemma NothingPacked(wanted: Option<seq<string>>, name: Name)
    ensures name in Empty(wanted) ==> Empty(wanted)[name] == []
  {
  }

  /** The order of the sections. */
  function Rank(name: Name): nat {
    match name
    case Governance => 0
    case Architecture => 1
    case Questions => 2
    case Adaptations => 3
    case Experiments => 4
    case Memory => 5
  }

  /** `s` lists the sections of `contents` that rank below `n`, each once, in the order of their ranks. */
  ghost predicate ListsSections(s: seq<Section>, contents: Contents, n: nat) {
    && (forall i | 0 <= i < |s| :: IsSection(s[i], contents, n))
    && (forall i, j | 0 <= i < j < |s| :: Rank(s[i].name) < Rank(s[j].name))
    && (forall name | name in contents && Rank(name) < n :: IsListed(s, name))
  }

  ghost predicate IsSection(x: Section, contents: Contents, n: nat) {
    x.name in contents && x.entries == contents[x.name] && Rank(x.name) < n
  }

  ghost predicate IsListed(s: seq<Section>, name: Name) {
    exists i :: 0 <= i < |s| && s[i].name == name
  }

  lemma SectionsSnoc(s: seq<Section>, contents: Contents, name: Name)
    requires ListsSections(s, contents, Rank(name))
    ensures ListsSections(s + if name in contents then [Section(name, contents[name])] else [], contents,
                          Rank(name) + 1)
  {
    hide IsListed;
    var all := s + if name in contents then [Section(name, contents[name])] else [];
    forall x | x in contents && Rank(x) < Rank(name) + 1
      ensures IsListed(all, x)
    {
      if x == name { ListedLast(s, Section(name, contents[name])); } else { ListedBefore(s, all, x); }
    }
  }

  lemma ListedLast(s: seq<Section>, x: Section)
    ensures IsListed(s + [x], x.name)
  {
    assert (s + [x])[|s|] == x;
  }

  lemma ListedBefore(s: seq<Section>, all: seq<Section>, name: Name)
    requires s <= all
    ensures IsListed(s, name) ==> IsListed(all, name)
  {
    if i :| 0 <= i < |s| && s[i].name == name { assert all[i].name == name; }
  }

  lemma {:induction false} OrderedSections(contents: Contents, n: nat)
    requires n <= 6
    ensures ListsSections(Ordered(contents, n), contents, n)
  {
    hide ListsSections;
    if n == 0 {
      NoSections(contents);
    } else {
      OrderedSections(contents, n - 1);
      RankOfName(n);
      SectionsSnoc(Ordered(contents, n - 1), contents, SECTION_ORDER[n - 1]);
    }
  }

  lemma NoSections(contents: Contents)
    ensures ListsSections([], contents, 0)
  {
  }

  lemma RankOfName(n: nat)
    requires 0 < n <= 6
    ensures Rank(SECTION_ORDER[n - 1]) == n - 1
  {
  }

  /** What the assembled context holds: one section for every heading asked for, in the fixed order, each
      with entries of events that belong to it. */
  lemma ContextHolds(events: seq<Retrieval.Scored>, wanted: Option<seq<string>>, budget: int)
    ensures var s := AssembledFrom(Pack(events, wanted, budget), |events|, budget).sections;
            && (forall i, j | 0 <= i < j < |s| :: Rank(s[i].name) < Rank(s[j].name))
            && (forall name :: IsListed(s, name) <==> AskedFor(wanted, name))
            && (forall i, e | 0 <= i < |s| && e in s[i].entries :: Shows(events, s[i].name, e))
  {
    hide Pack, Empty, Allowed, AskedFor, Shows, Ordered, IsListed;
    var p := Pack(events, wanted, budget);
    OrderedSections(p.contents, 6);
    PackGrows(events, wanted, budget, |events|);
    var s := Ordered(p.contents, 6);
    forall name
      ensures IsListed(s, name) <==> AskedFor(wanted, name)
    {
      AllowedIsPresent(wanted, name);
      AllowedIsAskedFor(wanted, name);
      ListedIsSection(s, p.contents, name);
    }
    forall i, e | 0 <= i < |s| && e in s[i].entries
      ensures Shows(events, s[i].name, e)
    {
      assert IsSection(s[i], p.contents, 6);
      PackedBelong(events, wanted, budget, s[i].name, e);
    }
  }

  lemma ListedIsSection(s: seq<Section>, contents: Contents, name: Name)
    requires ListsSections(s, contents, 6)
    ensures IsListed(s, name) <==> name in contents
  {
    if i :| 0 <= i < |s| && s[i].name == name { assert IsSection(s[i], contents, 6); }
  }

  /** `u` is `s` with the ASCII letters in upper case. */
  ghost predicate InUpperCase(s: string, u: string) {
    |u| == |s| && forall i | 0 <= i < |s| ::
      if 'a' <= s[i] <= 'z' then u[i] as int == s[i] as int - 32 else u[i] == s[i]
  }

  lemma JoinSnoc(parts: seq<string>, part: string, separator: string)
    ensures Join([part], separator) == part
    ensures parts != [] ==> Join(parts + [part], separator) == Join(parts, separator) + separator + part
  {
    assert (parts + [part])[..|parts|] == parts;
  }

  /** An optional line with the line break before it. */
  function Line(line: seq<string>): string
    requires |line| <= 1
  {
    if line == [] then "" else "\n" + line[0]
  }

  lemma JoinOptional(parts: seq<string>, line: seq<string>)
    requires parts != [] && |line| <= 1
    ensures Join(parts + line, "\n") == Join(parts, "\n") + Line(line)
  {
    hide Join;
    if line == [] {
      assert parts + line == parts;
    } else {
      assert line == [line[0]];
      JoinSnoc(parts, line[0], "\n");
    }
  }

  lemma JoinLines(head: string, title: string, summary: string, evidence: seq<string>, tags: seq<string>,
                  related: seq<string>)
    requires |evidence| <= 1 && |tags| <= 1 && |related| <= 1
    ensures Join([head, title, summary] + evidence + tags + related, "\n")
         == head + "\n" + title + "\n" + summary + Line(evidence) + Line(tags) + Line(related)
  {
    hide Join;
    JoinSnoc([], head, "\n");
    JoinSnoc([head], title, "\n");
    assert [head] + [title] == [head, title];
    JoinSnoc([head, title], summary, "\n");
    assert [head, title] + [summary] == [head, title, summary];
    JoinOptional([head, title, summary], evidence);
    JoinOptional([head, title, summary] + evidence, tags);
    JoinOptional([head, title, summary] + evidence + tags, related);
  }

  /** The rendered entry, line by line. */
  lemma RenderedLines(e: Entry, kind: string, head: string, evidence: seq<string>, tags: seq<string>,
                      related: seq<string>)
    requires kind == Upper(e.event.eventType)
    requires head == "[" + IntText(e.event.id) + "] " + kind + " | confidence=" + IntText(e.event.confidence)
                     + " | status=" + e.event.status
    requires if e.event.evidence.Some? && e.event.evidence.value != ""
             then evidence == ["  Evidence: " + e.event.evidence.value] else evidence == []
    requires if e.event.tags == [] then tags == [] else tags == ["  Tags    : " + Join(e.event.tags, ", ")]
    requires if e.isExpanded then related == ["  [related]"] else related == []
    ensures InUpperCase(e.event.eventType, kind)
    ensures Render(e) == head + "\n" + ("  Title   : " + e.event.title) + "\n" + ("  Summary : " + e.event.summary)
                         + Line(evidence) + Line(tags) + Line(related)
  {
    hide Join, IntText;
    JoinLines(head, "  Title   : " + e.event.title, "  Summary : " + e.event.summary, evidence, tags, related);
  }

  lemma IntReadsBack(n: int)
    ensures n >= 0 ==> ValueOf(IntText(n)) == n
    ensures n < 0 ==> IntText(n) != "" && IntText(n)[0] == '-' && ValueOf(IntText(n)[1..]) == -n
  {
    if n >= 0 { DecimalReadsBack(n); } else { DecimalReadsBack(-n); }
  }

  // ---------------------------------------------------------------------------
  // The rendered text
  // ---------------------------------------------------------------------------

  function RenderAll(entries: seq<Entry>): seq<string> {
    seq(|entries|, i requires 0 <= i < |entries| => Render(entries[i]))
  }

  /** `ContextSection.render` */
  function RenderSection(s: Section): string {
    if s.entries == [] then "" else "## " + Title(s.name) + "\n\n" + Join(RenderAll(s.entries), "\n\n") + "\n"
  }

  function NonEmpty(sections: seq<Section>): seq<string> {
    if sections == [] then []
    else
      var last := sections[|sections| - 1];
      NonEmpty(sections[..|sections| - 1]) + if last.entries == [] then [] else [RenderSection(last)]
  }

  /** `AssembledContext.to_text` */
  function ToText(a: Assembled): string {
    Join(NonEmpty(a.sections), "\n")
  }

  /** What the entries of the sections were charged. */
  function Charged(entries: seq<Entry>): nat {
    if entries == [] then 0 else Charged(entries[..|entries| - 1]) + Cost(entries[|entries| - 1])
  }

  function ChargedAll(contents: Contents, n: nat): nat
    requires n <= 6
  {
    if n == 0 then 0
    else ChargedAll(contents, n - 1) + Charged(EntriesOf(contents, SECTION_ORDER[n - 1]))
  }

  function EntriesOf(contents: Contents, name: Name): seq<Entry> {
    if name in contents then contents[name] else []
  }

  /** `chars_used` is what the entries in the sections were charged. */
  lemma {:induction false} UsedIsCharged(events: seq<Retrieval.Scored>, wanted: Option<seq<string>>, budget: int)
    ensures var p := Pack(events, wanted, budget); p.charsUsed == ChargedAll(p.contents, 6)
  {
    hide Cost, SectionOf, Allowed;
    if events == [] {
      NothingCharged(Empty(wanted), 6);
    } else {
      var before := Pack(events[..|events| - 1], wanted, budget);
      var last := events[|events| - 1];
      UsedIsCharged(events[..|events| - 1], wanted, budget);
      if Takes(before, last, budget) {
        ChargeOne(before.contents, SectionOf(last), MakeEntry(last), 6);
        EveryNameListed(SectionOf(last));
      }
    }
  }

  lemma EveryNameListed(name: Name)
    ensures name in SECTION_ORDER[..6]
  {
    assert SECTION_ORDER[..6] == SECTION_ORDER;
  }

  lemma {:induction false} NothingCharged(contents: Contents, n: nat)
    requires n <= 6 && forall name | name in contents :: contents[name] == []
    ensures ChargedAll(contents, n) == 0
  {
    if n > 0 { NothingCharged(contents, n - 1); }
  }

  lemma {:induction false} ChargeOne(contents: Contents, name: Name, e: Entry, n: nat)
    requires n <= 6 && name in contents
    ensures ChargedAll(contents[name := contents[name] + [e]], n)
         == ChargedAll(contents, n) + if name in SECTION_ORDER[..n] then Cost(e) else 0
  {
    hide Cost, Charged, SECTION_ORDER;
    if n > 0 {
      ChargeOne(contents, name, e, n - 1);
      ChargedSnoc(contents[name], e);
      NameOnce(n, name);
    }
  }

  lemma ChargedSnoc(entries: seq<Entry>, e: Entry)
    ensures Charged(entries + [e]) == Charged(entries) + Cost(e)
  {
    hide Cost;
    assert (entries + [e])[..|entries|] == entries;
  }

  lemma NameOnce(n: nat, name: Name)
    requires 0 < n <= 6
    ensures |SECTION_ORDER| == 6
    ensures name in SECTION_ORDER[..n] <==> name in SECTION_ORDER[..n - 1] || name == SECTION_ORDER[n - 1]
    ensures SECTION_ORDER[n - 1] !in SECTION_ORDER[..n - 1]
  {
    assert SECTION_ORDER[..n] == SECTION_ORDER[..n - 1] + [SECTION_ORDER[n - 1]];
  }

  /** The length of joined text. */
  function TotalLength(parts: seq<string>): nat {
    if parts == [] then 0 else TotalLength(parts[..|parts| - 1]) + |parts[|parts| - 1]|
  }

  lemma {:induction false} JoinLength(parts: seq<string>, separator: string)
    ensures |Join(parts, separator)| == TotalLength(parts) + if |parts| == 0 then 0 else (|parts| - 1) * |separator|
  {
    if |parts| == 1 {
      assert TotalLength(parts[..0]) == 0;
    } else if |parts| > 1 {
      JoinLength(parts[..|parts| - 1], separator);
      assert (|parts| - 1) * |separator| == (|parts| - 2) * |separator| + |separator|;
    }
  }

  lemma {:induction false} RenderedLength(entries: seq<Entry>)
    ensures TotalLength(RenderAll(entries)) == Charged(entries) - 4 * |entries|
  {
    hide Render;
    if entries != [] {
      RenderedLength(entries[..|entries| - 1]);
      assert RenderAll(entries)[..|entries| - 1] == RenderAll(entries[..|entries| - 1]);
    }
  }

  /** What a section adds to the text beyond what its entries were charged. */
  function Surplus(name: Name, entries: seq<Entry>): int {
    if entries == [] then 0 else |Title(name)| + 4 - 2 * |entries|
  }

  lemma SectionLength(s: Section)
    requires s.entries != []
    ensures |RenderSection(s)| == Charged(s.entries) + Surplus(s.name, s.entries)
  {
    hide Render, Title, Charged;
    JoinLength(RenderAll(s.entries), "\n\n");
    RenderedLength(s.entries);
  }

  function SurplusAll(contents: Contents, n: nat): int
    requires n <= 6
  {
    if n == 0 then 0
    else SurplusAll(contents, n - 1) + Surplus(SECTION_ORDER[n - 1], EntriesOf(contents, SECTION_ORDER[n - 1]))
  }

  /** How many of the first `n` sections have entries. */
  function Filled(contents: Contents, n: nat): nat
    requires n <= 6
  {
    if n == 0 then 0
    else Filled(contents, n - 1) + if EntriesOf(contents, SECTION_ORDER[n - 1]) == [] then 0 else 1
  }

  lemma {:induction false} PartsLength(contents: Contents, n: nat)
    requires n <= 6
    ensures TotalLength(NonEmpty(Ordered(contents, n))) == ChargedAll(contents, n) + SurplusAll(contents, n)
    ensures |NonEmpty(Ordered(contents, n))| == Filled(contents, n)
  {
    hide Charged, Surplus, RenderSection;
    if n > 0 {
      PartsLength(contents, n - 1);
      var name := SECTION_ORDER[n - 1];
      var before := Ordered(contents, n - 1);
      NothingAdds(name);
      if name in contents {
        var s := Section(name, contents[name]);
        assert (before + [s])[..|before|] == before;
        if s.entries != [] {
          SectionLength(s);
          var parts := NonEmpty(before);
          assert (parts + [RenderSection(s)])[..|parts|] == parts;
        } else {
          assert NonEmpty(before) + [] == NonEmpty(before);
        }
      } else {
        assert before + [] == before;
      }
    }
  }

  lemma NothingAdds(name: Name)
    ensures Charged([]) == 0 && Surplus(name, []) == 0
  {
  }

  /** The exact length of the rendered context. */
  lemma TextLength(events: seq<Retrieval.Scored>, wanted: Option<seq<string>>, budget: int)
    ensures var p := Pack(events, wanted, budget);
            var a := AssembledFrom(p, |events|, budget);
            |ToText(a)| == a.charsUsed + SurplusAll(p.contents, 6)
                           + if Filled(p.contents, 6) == 0 then 0 else Filled(p.contents, 6) - 1
  {
    hide Pack, Ordered, SurplusAll, ChargedAll, Filled, NonEmpty;
    var p := Pack(events, wanted, budget);
    UsedIsCharged(events, wanted, budget);
    PartsLength(p.contents, 6);
    JoinLength(NonEmpty(Ordered(p.contents, 6)), "\n");
  }

  /** All of the first `n` sections hold exactly one entry. */
  ghost predicate OneEach(contents: Contents, n: nat)
    requires n <= 6
  {
    forall i | 0 <= i < n :: |EntriesOf(contents, SECTION_ORDER[i])| == 1
  }

  /** The titles and their overhead, up to section `n`. */
  function Headroom(n: nat): nat
    requires n <= 6
  {
    if n == 0 then 0 else Headroom(n - 1) + |Title(SECTION_ORDER[n - 1])| + 3
  }

  lemma {:induction false} SurplusIsBounded(contents: Contents, n: nat)
    requires n <= 6
    ensures SurplusAll(contents, n) + Filled(contents, n) <= Headroom(n)
    ensures SurplusAll(contents, n) + Filled(contents, n) == Headroom(n) <==> OneEach(contents, n)
  {
    hide Title, EntriesOf;
    if n > 0 { SurplusIsBounded(contents, n - 1); }
  }

  lemma HeadroomInAll()
    ensures Headroom(6) == 131
  {
    assert Headroom(2) == 44;
    assert Headroom(4) == 84;
  }

  /** The rendered context is at most 130 characters longer than `chars_used`, and exactly that long
      when all six sections hold one entry. */
  lemma TextExceedsUsedBy130(events: seq<Retrieval.Scored>, wanted: Option<seq<string>>, budget: int)
    ensures var p := Pack(events, wanted, budget);
            var a := AssembledFrom(p, |events|, budget);
            && |ToText(a)| <= a.charsUsed + 130
            && (|ToText(a)| == a.charsUsed + 130 <==> OneEach(p.contents, 6))
  {
    hide Pack, ToText, SurplusAll, OneEach, Headroom, Ordered;
    TextLength(events, wanted, budget);
    SurplusIsBounded(Pack(events, wanted, budget).contents, 6);
    HeadroomInAll();
    NothingFilled(Pack(events, wanted, budget).contents, 6);
  }

  lemma {:induction false} NothingFilled(contents: Contents, n: nat)
    requires n <= 6
    ensures Filled(contents, n) == 0 ==> SurplusAll(contents, n) == 0
  {
    if n > 0 { NothingFilled(contents, n - 1); }
  }

  function TotalCost(events: seq<Retrieval.Scored>): nat {
    if events == [] then 0 else TotalCost(events[..|events| - 1]) + Cost(MakeEntry(events[|events| - 1]))
  }

  lemma {:induction false} TotalCostGrows(events: seq<Retrieval.Scored>, n: nat)
    requires n <= |events|
    ensures TotalCost(events[..n]) <= TotalCost(events)
  {
    hide Cost;
    if n < |events| {
      TotalCostGrows(events[..|events| - 1], n);
      assert events[..|events| - 1][..n] == events[..n];
    } else {
      assert events[..n] == events;
    }
  }

  lemma {:induction false} PackOnePerSection(events: seq<Retrieval.Scored>, budget: int, n: nat)
    requires |events| == 6 && forall i | 0 <= i < 6 :: SectionOf(events[i]) == SECTION_ORDER[i]
    requires n <= 6 && TotalCost(events) <= budget
    ensures var p := Pack(events[..n], None, budget);
            && p.charsUsed == TotalCost(events[..n])
            && forall i | 0 <= i < 6 ::
                 SECTION_ORDER[i] in p.contents
                 && p.contents[SECTION_ORDER[i]] == if i < n then [MakeEntry(events[i])] else []
  {
    hide Cost, SectionOf, MakeEntry;
    if n > 0 {
      PackOnePerSection(events, budget, n - 1);
      TotalCostGrows(events, n);
      assert events[..n][..n - 1] == events[..n - 1];
    }
  }

  /** The bound is reached: one event for each section, within budget. */
  lemma BoundIsReached(events: seq<Retrieval.Scored>, budget: int)
    requires |events| == 6 && forall i | 0 <= i < 6 :: SectionOf(events[i]) == SECTION_ORDER[i]
    requires TotalCost(events) <= budget
    ensures var a := AssembledFrom(Pack(events, None, budget), |events|, budget); |ToText(a)| == a.charsUsed + 130
  {
    hide Pack, ToText, SectionOf, MakeEntry, TotalCost;
    assert events[..6] == events;
    PackOnePerSection(events, budget, 6);
    TextExceedsUsedBy130(events, None, budget);
  }
}
