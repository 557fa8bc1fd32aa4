/** The assistant's retrieval step, its answer assembly and the dashboard
    insights (backend/services/langchain_service.py). The language model is a
    parameter: whether it is configured, and what it replies or that it
    fails, is given to the operations that use it. */
module Assistant {
  import opened Wrappers
  import opened Seqs
  import opened Text
  import DataLoader
  import opened Graph

  // ----- keyword routing -----

  const InvestorWords: seq<string> := ["investor", "invest", "fund", "angel", "vc", "venture", "who"]
  const SchemeWords: seq<string> := ["scheme", "grant", "government", "subsidy", "eligib", "loan"]
  const OpportunityWords: seq<string> := ["hackathon", "competition", "accelerator", "opportunity", "event", "challenge"]
  const DpiitWords: seq<string> := ["dpiit", "register", "recognition", "startup india"]

  /** The keyword lists of the seed-data fallback, each checked on its own. */
  const DataInvestorWords: seq<string> := ["investor", "invest", "fund", "angel", "vc", "venture"]
  const DataSchemeWords: seq<string> := ["scheme", "grant", "government", "subsidy"]

  const DpiitSource := "Startup India Policy 2024, Page 3"
  /** Every list in the context is cut at five entries (`[:5]`). */
  const MaxCards: nat := 5
  /** Answers name at most three sources (`sources[:3]`). */
  const MaxCited: nat := 3
  const MaxActions: nat := 4
  const ProbabilityCap: int := 95

  datatype Topic = InvestorTopic | SchemeTopic | OpportunityTopic | DpiitTopic | NoTopic

  /** The branch of the knowledge-graph context builder a lower-cased query
      takes: the first keyword group it hits, in this order. */
  function TopicOf(q: string): Topic {
    if ContainsAny(q, InvestorWords) then InvestorTopic
    else if ContainsAny(q, SchemeWords) then SchemeTopic
    else if ContainsAny(q, OpportunityWords) then OpportunityTopic
    else if ContainsAny(q, DpiitWords) then DpiitTopic
    else NoTopic
  }

  /** Every keyword of the graph's own query routing is also in this routing's word list
      for the same topic or an earlier one, so a query that falls through every group is
      one the graph query has nothing for: the fallback can only find
      something for an investor question. */
  lemma TopicsCoverGraphQuery(q: string)
    ensures AsksForInvestors(q) ==> TopicOf(q) == InvestorTopic
    ensures AsksForSchemes(q) ==> TopicOf(q) == InvestorTopic || TopicOf(q) == SchemeTopic
    ensures AsksForOpportunities(q) ==> TopicOf(q) != DpiitTopic && TopicOf(q) != NoTopic
  {
    if Contains(q, "investor") { assert Contains(q, InvestorWords[0]); }
    if Contains(q, "fund") { assert Contains(q, InvestorWords[2]); }
    if Contains(q, "scheme") { assert Contains(q, SchemeWords[0]); }
    if Contains(q, "grant") { assert Contains(q, SchemeWords[1]); }
    if Contains(q, "hackathon") { assert Contains(q, OpportunityWords[0]); }
    if Contains(q, "accelerator") { assert Contains(q, OpportunityWords[2]); }
    if Contains(q, "opportunity") { assert Contains(q, OpportunityWords[3]); }
  }

  // ----- the context -----

  /** One entry of `context_parts`: each renders as a non-empty line or block,
      so the joined context is empty exactly when there are no parts. The
      rendered text itself is not modelled, only what each part reports. */
  datatype ContextPart =
    | InvestorsHeading(location: Option<string>, sector: Option<string>)
    | InferenceNote
    | FoundCount(topic: Topic, count: nat)
    | InvestorCard(investor: Entity, matchedVia: string)
    | InferredState(state: string, city: string)
    | SchemesHeading(forState: Option<string>)
    | SchemeCard(scheme: Entity)
    | OpportunitiesHeading
    | OpportunityCard(opportunity: Entity)
    | DpiitHeading
    | DpiitCard
    | SearchHeading
    | SearchLine(hit: QueryHit)
    | InvestorRecordsHeading
    | InvestorRecord(investorRecord: DataLoader.Investor)
    | SchemeRecordsHeading
    | SchemeRecord(schemeRecord: DataLoader.Scheme)
  {
    /** A part that presents one entity or record. */
    predicate IsCard() {
      InvestorCard? || SchemeCard? || OpportunityCard? || SearchLine? || InvestorRecord? || SchemeRecord?
    }

    predicate IsSearch() { SearchHeading? || SearchLine? }

    /** The keyword branch that writes this part. */
    function Branch(): Topic {
      match this
      case InvestorsHeading(_, _) => InvestorTopic
      case InferenceNote => InvestorTopic
      case FoundCount(t, _) => t
      case InvestorCard(_, _) => InvestorTopic
      case InferredState(_, _) => SchemeTopic
      case SchemesHeading(_) => SchemeTopic
      case SchemeCard(_) => SchemeTopic
      case OpportunitiesHeading => OpportunityTopic
      case OpportunityCard(_) => OpportunityTopic
      case DpiitHeading => DpiitTopic
      case DpiitCard => DpiitTopic
      case _ => NoTopic
    }

    /** The source this part adds to `sources` ("" for none). */
    function Source(): string {
      match this
      case InvestorCard(e, _) => e.properties.source
      case SchemeCard(e) => e.properties.source
      case OpportunityCard(e) => e.properties.source
      case DpiitCard => DpiitSource
      case SearchLine(h) => h.entity.properties.source
      case InvestorRecord(r) => r.source.GetOr("")
      case SchemeRecord(r) => r.source.GetOr("")
      case _ => ""
    }
  }

  const IsCardPart: ContextPart -> bool := (p: ContextPart) => p.IsCard()

  function CardCount(parts: seq<ContextPart>): nat {
    |Filter(parts, IsCardPart)|
  }

  /** The non-empty sources of `parts`, in order. */
  function CitedSources(parts: seq<ContextPart>): (r: seq<string>)
    decreases |parts|
  {
    if parts == [] then []
    else
      var init, p := parts[..|parts| - 1], parts[|parts| - 1];
      CitedSources(init) + (if p.Source() != "" then [p.Source()] else [])
  }

  /** Exactly the non-empty sources of the parts are cited. */
  lemma {:induction false} CitedSourcesMeaning(parts: seq<ContextPart>)
    ensures forall s | s in CitedSources(parts) :: s != "" && exists p | p in parts :: p.Source() == s
    ensures forall p | p in parts && p.Source() != "" :: p.Source() in CitedSources(parts)
    decreases |parts|
  {
    if parts != [] {
      var init, p := parts[..|parts| - 1], parts[|parts| - 1];
      assert parts == init + [p];
      CitedSourcesMeaning(init);
    }
  }

  lemma CitedSourcesSnoc(a: seq<ContextPart>, p: ContextPart)
    ensures CitedSources(a + [p]) == CitedSources(a) + (if p.Source() != "" then [p.Source()] else [])
  {
    assert (a + [p])[..|a|] == a;
  }

  lemma {:induction false} CitedSourcesAppend(a: seq<ContextPart>, b: seq<ContextPart>)
    ensures CitedSources(a + b) == CitedSources(a) + CitedSources(b)
    decreases |b|
  {
    if b == [] {
      assert a + b == a;
    } else {
      var init, p := b[..|b| - 1], b[|b| - 1];
      assert b == init + [p];
      CitedSourcesAppend(a, init);
      CitedSourcesAppendStep(a, init, p);
    }
  }

  lemma CitedSourcesAppendStep(a: seq<ContextPart>, init: seq<ContextPart>, p: ContextPart)
    requires CitedSources(a + init) == CitedSources(a) + CitedSources(init)
    ensures CitedSources(a + (init + [p])) == CitedSources(a) + CitedSources(init + [p])
  {
    assert a + (init + [p]) == (a + init) + [p];
    CitedSourcesSnoc(a + init, p);
    CitedSourcesSnoc(init, p);
  }

  /** Headings and counts count no card and cite nothing. */
  lemma {:induction false} PlainParts(hs: seq<ContextPart>)
    requires forall p | p in hs :: !p.IsCard() && p.Source() == ""
    ensures CardCount(hs) == 0 && CitedSources(hs) == []
    decreases |hs|
  {
    FilterNone(hs, IsCardPart);
    if hs != [] {
      assert forall p | p in hs[..|hs| - 1] :: p in hs;
      assert hs[|hs| - 1] in hs;
      PlainParts(hs[..|hs| - 1]);
    }
  }

  /** A list made only of cards counts each of them. */
  lemma AllCards(cs: seq<ContextPart>)
    requires forall p | p in cs :: p.IsCard()
    ensures CardCount(cs) == |cs|
  {
    FilterAll(cs, IsCardPart);
  }

  /** The counts and sources of `heads + cards`, with `heads` plain. */
  lemma HeadedCards(heads: seq<ContextPart>, cards: seq<ContextPart>)
    requires forall p | p in heads :: !p.IsCard() && p.Source() == ""
    requires forall p | p in cards :: p.IsCard()
    ensures CardCount(heads + cards) == |cards|
    ensures CitedSources(heads + cards) == CitedSources(cards)
  {
    PlainParts(heads);
    AllCards(cards);
    FilterAppend(heads, cards, IsCardPart);
    CitedSourcesAppend(heads, cards);
  }

  /** The `for item in items[:5]` loops: the first five cards, and each one's
      source when it has one. */
  method RenderCards(cards: seq<ContextPart>) returns (shown: seq<ContextPart>, sources: seq<string>)
    ensures shown == Take(cards, MaxCards)
    ensures sources == CitedSources(shown)
  {
    var first := Take(cards, MaxCards);
    shown := [];
    sources := [];
    for i := 0 to |first|
      invariant shown == first[..i]
      invariant sources == CitedSources(first[..i])
    {
      assert first[..i + 1] == first[..i] + [first[i]];
      CitedSourcesSnoc(first[..i], first[i]);
      shown := shown + [first[i]];
      if first[i].Source() != "" {
        sources := sources + [first[i].Source()];
      }
    }
    assert first[..|first|] == first;
  }

  function Cards<T>(items: seq<T>, card: T -> ContextPart): (cs: seq<ContextPart>)
    ensures |cs| == |items|
  {
    seq(|items|, i requires 0 <= i < |items| => card(items[i]))
  }

  function Min(a: int, b: int): int { if a <= b then a else b }

  /** The first five of a list of cards are all cards, and as many as the
      list has up to five. */
  lemma FirstCards(cs: seq<ContextPart>)
    requires forall p | p in cs :: p.IsCard()
    ensures forall p | p in Take(cs, MaxCards) :: p.IsCard()
    ensures |Take(cs, MaxCards)| == Min(|cs|, MaxCards)
  {
    assert forall p | p in Take(cs, MaxCards) :: p in cs;
  }

  /** The retrieval statistics reported next to the context. */
  datatype Retrieval =
    | GraphRetrieval(entitiesFound: nat, relationshipsTraversed: nat)
    | KeywordRetrieval
    | NoMatch

  datatype Context = Context(parts: seq<ContextPart>, sources: seq<string>, retrieval: Retrieval)

  // ----- the seed-data fallback -----

  /** The first state of the seed file, in key order, whose lower-cased name
      the query contains. */
  function MentionedStateName(states: seq<DataLoader.StateRecord>, q: string): (r: Option<string>)
    ensures r.Some? ==> exists st | st in states :: st.name == r.value && Contains(q, Lower(st.name))
    ensures r.None? ==> forall st | st in states :: !Contains(q, Lower(st.name))
    decreases |states|
  {
    if states == [] then None
    else if Contains(q, Lower(states[0].name)) then Some(states[0].name)
    else
      var r := MentionedStateName(states[1..], q);
      assert forall st | st in states[1..] :: st in states;
      r
  }

  method FindStateName(states: seq<DataLoader.StateRecord>, q: string) returns (r: Option<string>)
    ensures r == MentionedStateName(states, q)
  {
    var i := 0;
    while i < |states|
      invariant 0 <= i <= |states|
      invariant MentionedStateName(states[i..], q) == MentionedStateName(states, q)
    {
      if Contains(q, Lower(states[i].name)) {
        return Some(states[i].name);
      }
      assert states[i..][1..] == states[i + 1..];
      i := i + 1;
    }
    return None;
  }

  /** The first of an investor's sectors whose lower-cased name the query contains. */
  function FirstSectorIn(sectors: seq<string>, q: string): (r: Option<string>)
    ensures r.Some? ==> r.value in sectors && Contains(q, Lower(r.value))
    ensures r.None? ==> forall s | s in sectors :: !Contains(q, Lower(s))
    decreases |sectors|
  {
    if sectors == [] then None
    else if Contains(q, Lower(sectors[0])) then Some(sectors[0])
    else
      var r := FirstSectorIn(sectors[1..], q);
      assert forall s | s in sectors[1..] :: s in sectors;
      r
  }

  /** The sector of the fallback's investor query. Its `break` leaves only the
      inner loop, so every investor overwrites the choice of the ones before:
      the sector comes from the last investor that has a mentioned sector. */
  function LastSectorMention(investors: seq<DataLoader.Investor>, q: string): Option<string>
    decreases |investors|
  {
    if investors == [] then None
    else
      var mine := FirstSectorIn(investors[|investors| - 1].sectors, q);
      if mine.Some? then mine else LastSectorMention(investors[..|investors| - 1], q)
  }

  /** No investor after the `i`-th has a mentioned sector. */
  ghost predicate NoneMentionedAfter(investors: seq<DataLoader.Investor>, q: string, i: int) {
    forall j | 0 <= j < |investors| && i < j :: FirstSectorIn(investors[j].sectors, q).None?
  }

  lemma {:induction false} LastSectorMentionMeaning(investors: seq<DataLoader.Investor>, q: string)
    ensures LastSectorMention(investors, q).Some? ==>
      exists i | 0 <= i < |investors| ::
        FirstSectorIn(investors[i].sectors, q) == LastSectorMention(investors, q) && NoneMentionedAfter(investors, q, i)
    ensures LastSectorMention(investors, q).None? ==> NoneMentionedAfter(investors, q, -1)
    decreases |investors|
  {
    if investors != [] {
      var n := |investors| - 1;
      var init := investors[..n];
      var mine := FirstSectorIn(investors[n].sectors, q);
      if mine.Some? {
        assert NoneMentionedAfter(investors, q, n);
      } else {
        LastSectorMentionMeaning(init, q);
        assert LastSectorMention(investors, q) == LastSectorMention(init, q);
        if LastSectorMention(init, q).Some? {
          var i :| 0 <= i < |init| &&
            FirstSectorIn(init[i].sectors, q) == LastSectorMention(init, q) && NoneMentionedAfter(init, q, i);
          assert investors[i] == init[i];
          forall j | 0 <= j < |investors| && i < j ensures FirstSectorIn(investors[j].sectors, q).None? {
            if j < n { assert investors[j] == init[j]; }
          }
        } else {
          forall j | 0 <= j < |investors| ensures FirstSectorIn(investors[j].sectors, q).None? {
            if j < n { assert investors[j] == init[j]; }
          }
        }
      }
    }
  }

  method FirstSectorOf(sectors: seq<string>, q: string) returns (r: Option<string>)
    ensures r == FirstSectorIn(sectors, q)
  {
    var j := 0;
    while j < |sectors|
      invariant 0 <= j <= |sectors|
      invariant FirstSectorIn(sectors[j..], q) == FirstSectorIn(sectors, q)
    {
      if Contains(q, Lower(sectors[j])) {
        return Some(sectors[j]);
      }
      assert sectors[j..][1..] == sectors[j + 1..];
      j := j + 1;
    }
    return None;
  }

  method FindSectorName(investors: seq<DataLoader.Investor>, q: string) returns (sector: Option<string>)
    ensures sector == LastSectorMention(investors, q)
  {
    sector := None;
    for i := 0 to |investors|
      invariant sector == LastSectorMention(investors[..i], q)
    {
      assert investors[..i + 1][..i] == investors[..i];
      var mine := FirstSectorOf(investors[i].sectors, q);
      if mine.Some? {
        sector := mine;
      }
    }
    assert investors[..|investors|] == investors;
  }

  /** A heading followed by the first five cards, or nothing without cards. */
  function Section(heading: ContextPart, cards: seq<ContextPart>): seq<ContextPart> {
    if cards == [] then [] else [heading] + Take(cards, MaxCards)
  }

  function InvestorRecords(investors: seq<DataLoader.Investor>): seq<ContextPart> {
    Cards(investors, (r: DataLoader.Investor) => InvestorRecord(r))
  }

  function SchemeRecords(schemes: seq<DataLoader.Scheme>): seq<ContextPart> {
    Cards(schemes, (r: DataLoader.Scheme) => SchemeRecord(r))
  }

  /** The investors the fallback lists: those of the mentioned state and sector. */
  function DataInvestors(seed: DataLoader.SeedData, q: string): seq<DataLoader.Investor> {
    Filter(seed.investors, DataLoader.InvestorFilter(LastSectorMention(seed.investors, q), MentionedStateName(seed.states, q), None))
  }

  /** The schemes the fallback lists: those of the mentioned state. */
  function DataSchemes(seed: DataLoader.SeedData, q: string): seq<DataLoader.Scheme> {
    Filter(seed.schemes, DataLoader.SchemeFilter(MentionedStateName(seed.states, q), None))
  }

  /** The investor section of the fallback context. */
  function InvestorPart(seed: DataLoader.SeedData, q: string): seq<ContextPart> {
    if ContainsAny(q, DataInvestorWords) then Section(InvestorRecordsHeading, InvestorRecords(DataInvestors(seed, q))) else []
  }

  /** The scheme section of the fallback context. */
  function SchemePart(seed: DataLoader.SeedData, q: string): seq<ContextPart> {
    if ContainsAny(q, DataSchemeWords) then Section(SchemeRecordsHeading, SchemeRecords(DataSchemes(seed, q))) else []
  }

  lemma SectionCount(heading: ContextPart, cards: seq<ContextPart>)
    requires !heading.IsCard()
    ensures CardCount(Section(heading, cards)) <= MaxCards
    ensures forall p | p in Section(heading, cards) :: p == heading || p in cards
  {
    if cards != [] {
      FilterAppend([heading], Take(cards, MaxCards), IsCardPart);
      assert Filter([heading], IsCardPart) == [];
      assert forall p | p in Take(cards, MaxCards) :: p in cards;
    }
  }

  /** The fallback's investor section: at most five records, only for an
      investor question, each a seed investor of the mentioned sector and state. */
  lemma InvestorPartMeaning(seed: DataLoader.SeedData, q: string)
    ensures CardCount(InvestorPart(seed, q)) <= MaxCards
    ensures forall p | p in InvestorPart(seed, q) :: p.InvestorRecordsHeading? || p.InvestorRecord?
    ensures forall p | p in InvestorPart(seed, q) && p.InvestorRecord? ::
      ContainsAny(q, DataInvestorWords) && p.investorRecord in seed.investors
      && DataLoader.InvestorMatches(p.investorRecord, LastSectorMention(seed.investors, q), MentionedStateName(seed.states, q), None)
    ensures InvestorPart(seed, q) != [] <==> ContainsAny(q, DataInvestorWords) && DataInvestors(seed, q) != []
  {
    var investors := DataInvestors(seed, q);
    if ContainsAny(q, DataInvestorWords) {
      SectionCount(InvestorRecordsHeading, InvestorRecords(investors));
      forall p | p in InvestorRecords(investors) ensures p.InvestorRecord? && p.investorRecord in investors {
        var i :| 0 <= i < |investors| && InvestorRecords(investors)[i] == p;
        assert p.investorRecord == investors[i];
      }
    }
  }

  /** The fallback's scheme section: at most five records, only for a scheme
      question, each a seed scheme of the mentioned state. */
  lemma SchemePartMeaning(seed: DataLoader.SeedData, q: string)
    ensures CardCount(SchemePart(seed, q)) <= MaxCards
    ensures forall p | p in SchemePart(seed, q) :: p.SchemeRecordsHeading? || p.SchemeRecord?
    ensures forall p | p in SchemePart(seed, q) && p.SchemeRecord? ::
      ContainsAny(q, DataSchemeWords) && p.schemeRecord in seed.schemes
      && DataLoader.SchemeMatches(p.schemeRecord, MentionedStateName(seed.states, q), None)
    ensures SchemePart(seed, q) != [] <==> ContainsAny(q, DataSchemeWords) && DataSchemes(seed, q) != []
  {
    var schemes := DataSchemes(seed, q);
    if ContainsAny(q, DataSchemeWords) {
      SectionCount(SchemeRecordsHeading, SchemeRecords(schemes));
      forall p | p in SchemeRecords(schemes) ensures p.SchemeRecord? && p.schemeRecord in schemes {
        var i :| 0 <= i < |schemes| && SchemeRecords(schemes)[i] == p;
        assert p.schemeRecord == schemes[i];
      }
    }
  }

  /** A heading in front of the shown cards adds no source. */
  lemma HeadedSources(heading: ContextPart, shown: seq<ContextPart>)
    requires !heading.IsCard() && heading.Source() == ""
    ensures CitedSources([heading] + shown) == CitedSources(shown)
  {
    CitedSourcesAppend([heading], shown);
    PlainParts([heading]);
  }

  method InvestorSection(seed: DataLoader.SeedData, q: string) returns (parts: seq<ContextPart>, sources: seq<string>)
    ensures parts == InvestorPart(seed, q)
    ensures sources == CitedSources(parts)
  {
    parts, sources := [], [];
    if ContainsAny(q, DataInvestorWords) {
      var state := FindStateName(seed.states, q);
      var sector := FindSectorName(seed.investors, q);
      var investors := DataLoader.GetInvestors(seed.investors, sector, state, None);
      assert investors == DataInvestors(seed, q);
      parts, sources := RecordSection(InvestorRecordsHeading, InvestorRecords(investors));
    }
  }

  method SchemeSection(seed: DataLoader.SeedData, q: string) returns (parts: seq<ContextPart>, sources: seq<string>)
    ensures parts == SchemePart(seed, q)
    ensures sources == CitedSources(parts)
  {
    parts, sources := [], [];
    if ContainsAny(q, DataSchemeWords) {
      var state := FindStateName(seed.states, q);
      var schemes := DataLoader.GetSchemes(seed.schemes, state, None);
      assert schemes == DataSchemes(seed, q);
      parts, sources := RecordSection(SchemeRecordsHeading, SchemeRecords(schemes));
    }
  }

  /** A heading and the first five records, with their sources; nothing
      when there are no records. */
  method RecordSection(heading: ContextPart, cards: seq<ContextPart>) returns (parts: seq<ContextPart>, sources: seq<string>)
    requires !heading.IsCard() && heading.Source() == ""
    ensures parts == Section(heading, cards)
    ensures sources == CitedSources(parts)
  {
    parts, sources := [], [];
    if cards != [] {
      var shown, cited := RenderCards(cards);
      parts := [heading] + shown;
      HeadedSources(heading, shown);
      sources := cited;
    }
  }

  /** `build_context_from_data`: the context for a query when the knowledge
      graph is unavailable: the investor section, then the scheme section,
      and their sources without repetitions. */
  method BuildContextFromData(seed: DataLoader.SeedData, query: string) returns (ctx: Context)
    ensures ctx.parts == InvestorPart(seed, Lower(query)) + SchemePart(seed, Lower(query))
    ensures ctx.sources == Dedup(CitedSources(ctx.parts))
    ensures ctx.retrieval == KeywordRetrieval
  {
    var q := Lower(query);
    var investorParts, investorSources := InvestorSection(seed, q);
    var schemeParts, schemeSources := SchemeSection(seed, q);
    CitedSourcesAppend(investorParts, schemeParts);
    ctx := Context(investorParts + schemeParts, Dedup(investorSources + schemeSources), KeywordRetrieval);
  }

  // ----- the knowledge-graph context -----

  /** The `location_hint`: the first city, state or region the query names. */
  function LocationHint(kg: KnowledgeGraph, q: string): Option<string>
    reads kg
    requires kg.Valid()
  {
    FirstMention(kg.Values(), LocationKinds, q)
  }

  /** The `sector_hint`: the first sector the query names. */
  function SectorHint(kg: KnowledgeGraph, q: string): Option<string>
    reads kg
    requires kg.Valid()
  {
    FirstMention(kg.Values(), {Sector}, q)
  }

  /** The `state_hint` before inference: the first state the query names. */
  function StateHint(kg: KnowledgeGraph, q: string): Option<string>
    reads kg
    requires kg.Valid()
  {
    FirstMention(kg.Values(), {State}, q)
  }

  /** The ids of every investor an investor question is answered with. */
  ghost function AnswerIds(kg: KnowledgeGraph, q: string): set<string>
    reads kg
    requires kg.Valid()
  {
    set e | e in kg.Values() && kg.InvestorAnswers(q, e) :: e.id
  }

  /** A list of distinct investors that holds exactly the answers has as
      many entries as there are answers. */
  lemma CountAnswers(kg: KnowledgeGraph, q: string, es: seq<Entity>)
    requires kg.Valid()
    requires DistinctIds(es)
    requires forall e | e in es :: kg.InvestorAnswers(q, e)
    requires forall e | e in kg.Values() && kg.InvestorAnswers(q, e) :: e in es
    ensures |es| == |AnswerIds(kg, q)|
  {
    assert IdsOf(es) == AnswerIds(kg, q);
    DistinctIdsCardinality(es);
  }

  function LocatedIdIn(ids: set<string>): LocatedInvestor -> bool {
    (x: LocatedInvestor) => x.investor.id in ids
  }

  lemma {:induction false} InvestorsOfFilter(xs: seq<LocatedInvestor>, ids: set<string>)
    ensures InvestorsOf(Filter(xs, LocatedIdIn(ids))) == Filter(InvestorsOf(xs), HasIdIn(ids))
    decreases |xs|
  {
    if xs != [] {
      var init, x := xs[..|xs| - 1], xs[|xs| - 1];
      InvestorsOfFilter(init, ids);
      assert xs == init + [x];
      InvestorsOfSnoc(init, x);
      FilterSnoc(init, x, LocatedIdIn(ids));
      FilterSnoc(InvestorsOf(init), x.investor, HasIdIn(ids));
      InvestorsOfSnoc(Filter(init, LocatedIdIn(ids)), x);
    }
  }

  lemma InvestorsOfSnoc(xs: seq<LocatedInvestor>, x: LocatedInvestor)
    ensures InvestorsOf(xs + [x]) == InvestorsOf(xs) + [x.investor]
  {
  }

  /** The sector-only pairs `(i, "N/A")`. */
  function Unlocated(es: seq<Entity>): (xs: seq<LocatedInvestor>)
    ensures InvestorsOf(xs) == es
    ensures forall x | x in xs :: x.investor in es && x.matchedLocation == "N/A"
  {
    var xs := seq(|es|, i requires 0 <= i < |es| => LocatedInvestor(es[i], "N/A"));
    assert InvestorsOf(xs) == es;
    xs
  }

  function InvestorCards(items: seq<LocatedInvestor>): (cs: seq<ContextPart>)
    ensures |cs| == |items|
    ensures forall i | 0 <= i < |items| :: cs[i] == InvestorCard(items[i].investor, items[i].matchedLocation)
    ensures forall p | p in cs :: p.InvestorCard? && p.Branch() == InvestorTopic && LocatedInvestor(p.investor, p.matchedVia) in items
  {
    seq(|items|, i requires 0 <= i < |items| => InvestorCard(items[i].investor, items[i].matchedLocation))
  }

  /** `x` answers the investor question `q`, and its matched location is
      the one its location edge names when `q` names a location, else "N/A". */
  ghost predicate Answers(kg: KnowledgeGraph, q: string, x: LocatedInvestor)
    reads kg
    requires kg.Valid()
  {
    && kg.InvestorAnswers(q, x.investor)
    && x.matchedLocation == if DataLoader.Given(LocationHint(kg, q))
         then kg.MatchedLocation(x.investor.id, kg.LocationIds(LocationHint(kg, q).value)) else "N/A"
  }

  /** An investor card in the context answers the question it was built for. */
  ghost predicate CardAnswers(kg: KnowledgeGraph, q: string, p: ContextPart)
    reads kg
    requires kg.Valid()
  {
    p.InvestorCard? ==> Answers(kg, q, LocatedInvestor(p.investor, p.matchedVia))
  }

  lemma CardsAnswer(kg: KnowledgeGraph, q: string, items: seq<LocatedInvestor>, parts: seq<ContextPart>)
    requires kg.Valid()
    requires forall x | x in items :: Answers(kg, q, x)
    requires forall p | p in parts && p.InvestorCard? :: LocatedInvestor(p.investor, p.matchedVia) in items
    ensures forall p | p in parts :: CardAnswers(kg, q, p)
  {
  }

  ghost predicate MatchedInvestors(kg: KnowledgeGraph, q: string, items: seq<LocatedInvestor>)
    reads kg
    requires kg.Valid()
  {
    && (forall x | x in items :: Answers(kg, q, x))
    && |items| == |AnswerIds(kg, q)|
    && DistinctIds(InvestorsOf(items))
  }

  /** No two investor cards show the same investor. */
  predicate DistinctInvestorCards(parts: seq<ContextPart>) {
    forall i, j | 0 <= i < j < |parts| && parts[i].InvestorCard? && parts[j].InvestorCard? ::
      parts[i].investor.id != parts[j].investor.id
  }

  lemma DistinctCardsOfDistinctInvestors(items: seq<LocatedInvestor>)
    requires DistinctIds(InvestorsOf(items))
    ensures DistinctInvestorCards(InvestorCards(items))
  {
    var cs := InvestorCards(items);
    forall i, j | 0 <= i < j < |cs| ensures cs[i].investor.id != cs[j].investor.id {
      assert InvestorsOf(items)[i] == items[i].investor && InvestorsOf(items)[j] == items[j].investor;
    }
  }

  /** Headings and a count line before the cards, and a cut after them,
      leave the cards' investors distinct. */
  lemma DistinctCardsShown(heads: seq<ContextPart>, cards: seq<ContextPart>, n: nat)
    requires forall p | p in heads :: !p.IsCard()
    requires DistinctInvestorCards(cards)
    ensures DistinctInvestorCards(heads + Take(cards, n))
  {
    var shown := Take(cards, n);
    var parts := heads + shown;
    assert forall k | 0 <= k < |heads| :: parts[k] == heads[k] && heads[k] in heads;
    forall i, j | 0 <= i < j < |parts| && parts[i].InvestorCard? && parts[j].InvestorCard?
      ensures parts[i].investor.id != parts[j].investor.id
    {
      assert parts[i] == shown[i - |heads|] == cards[i - |heads|];
      assert parts[j] == shown[j - |heads|] == cards[j - |heads|];
    }
  }

  /** The investors of the investor branch, paired with how they matched: the
      intersection when the query names a location and a sector, else the
      lookup for whichever it names, else none; with the
      `relationships_traversed` the branch adds. */
  method InvestorMatches(kg: KnowledgeGraph, q: string)
    returns (location: Option<string>, sector: Option<string>, items: seq<LocatedInvestor>, traversed: nat)
    requires kg.Valid()
    ensures location == LocationHint(kg, q) && sector == SectorHint(kg, q)
    ensures forall x | x in items :: Answers(kg, q, x)
    ensures DataLoader.Given(LocationHint(kg, q)) || DataLoader.Given(SectorHint(kg, q)) ==>
      |items| == |AnswerIds(kg, q)|
    ensures DistinctIds(InvestorsOf(items))
    ensures !DataLoader.Given(LocationHint(kg, q)) && !DataLoader.Given(SectorHint(kg, q)) ==> items == [] && traversed == 0
  {
    location := kg.FindMentioned(LocationKinds, q);
    sector := kg.FindMentioned({Sector}, q);
    items, traversed := [], 0;
    if DataLoader.Given(location) && DataLoader.Given(sector) {
      items, traversed := LocatedInSector(kg, q, location.value, sector.value);
    } else if DataLoader.Given(location) {
      items, traversed := LocatedAnywhere(kg, q, location.value);
    } else if DataLoader.Given(sector) {
      items := InSectorAnywhere(kg, q, sector.value);
    }
  }

  method LocatedInSector(kg: KnowledgeGraph, q: string, location: string, sector: string) returns (items: seq<LocatedInvestor>, traversed: nat)
    requires kg.Valid()
    requires LocationHint(kg, q) == Some(location) && location != ""
    requires SectorHint(kg, q) == Some(sector) && sector != ""
    ensures MatchedInvestors(kg, q, items)
  {
    var located := kg.FindInvestorsInLocation(location);
    var inSector := kg.FindInvestorsInSector(sector);
    items := Filter(located, LocatedIdIn(IdsOf(inSector)));
    traversed := |located| + |inSector|;
    BothLocatedAndInSector(kg, q, located, inSector, items);
  }

  method LocatedAnywhere(kg: KnowledgeGraph, q: string, location: string) returns (items: seq<LocatedInvestor>, traversed: nat)
    requires kg.Valid()
    requires LocationHint(kg, q) == Some(location) && location != ""
    requires !DataLoader.Given(SectorHint(kg, q))
    ensures MatchedInvestors(kg, q, items)
  {
    items := kg.FindInvestorsInLocation(location);
    traversed := |items|;
    OnlyLocated(kg, q, items);
  }

  method InSectorAnywhere(kg: KnowledgeGraph, q: string, sector: string) returns (items: seq<LocatedInvestor>)
    requires kg.Valid()
    requires !DataLoader.Given(LocationHint(kg, q))
    requires SectorHint(kg, q) == Some(sector) && sector != ""
    ensures MatchedInvestors(kg, q, items)
  {
    var inSector := kg.FindInvestorsInSector(sector);
    items := Unlocated(inSector);
    OnlyInSector(kg, q, inSector);
  }

  lemma BothLocatedAndInSector(kg: KnowledgeGraph, q: string, located: seq<LocatedInvestor>, inSector: seq<Entity>, items: seq<LocatedInvestor>)
    requires kg.Valid()
    requires DataLoader.Given(LocationHint(kg, q)) && DataLoader.Given(SectorHint(kg, q))
    requires located == kg.Locate(kg.FindEntitiesByType(Investor), kg.LocationIds(LocationHint(kg, q).value))
    requires forall x | x in located ::
      x.investor.kind == Investor && x.investor in kg.Values()
      && HasEdgeInto(kg.relationships, x.investor.id, OperatesIn, kg.LocationIds(LocationHint(kg, q).value))
    requires forall e | e in kg.FindEntitiesByType(Investor) && HasEdgeInto(kg.relationships, e.id, OperatesIn, kg.LocationIds(LocationHint(kg, q).value)) ::
      e in InvestorsOf(located)
    requires inSector == Filter(kg.FindEntitiesByType(Investor), EdgeInto(kg.relationships, InvestsIn, kg.SectorIdsNamed(SectorHint(kg, q).value)))
    requires items == Filter(located, LocatedIdIn(IdsOf(inSector)))
    ensures forall x | x in items :: kg.InvestorAnswers(q, x.investor)
    ensures forall x | x in items :: x.matchedLocation == kg.MatchedLocation(x.investor.id, kg.LocationIds(LocationHint(kg, q).value))
    ensures |items| == |AnswerIds(kg, q)|
    ensures DistinctIds(InvestorsOf(items))
  {
    var locIds := kg.LocationIds(LocationHint(kg, q).value);
    var secIds := kg.SectorIdsNamed(SectorHint(kg, q).value);
    var es := InvestorsOf(items);
    InvestorsOfFilter(located, IdsOf(inSector));
    FilterKeepsDistinctIds(kg.FindEntitiesByType(Investor), EdgeInto(kg.relationships, OperatesIn, locIds));
    FilterKeepsDistinctIds(InvestorsOf(located), HasIdIn(IdsOf(inSector)));
    forall x | x in items ensures kg.InvestorAnswers(q, x.investor) {
      assert x in located;
      var e' :| e' in inSector && e'.id == x.investor.id;
      assert e' == x.investor;
      assert EdgeInto(kg.relationships, InvestsIn, secIds)(e');
    }
    forall e | e in es ensures kg.InvestorAnswers(q, e) {
      var i :| 0 <= i < |items| && es[i] == e;
      assert items[i] in items;
    }
    forall e | e in kg.Values() && kg.InvestorAnswers(q, e) ensures e in es {
      assert e in kg.FindEntitiesByType(Investor);
      assert EdgeInto(kg.relationships, InvestsIn, secIds)(e);
      assert e in inSector;
      assert HasIdIn(IdsOf(inSector))(e);
    }
    CountAnswers(kg, q, es);
  }

  lemma OnlyLocated(kg: KnowledgeGraph, q: string, items: seq<LocatedInvestor>)
    requires kg.Valid()
    requires DataLoader.Given(LocationHint(kg, q)) && !DataLoader.Given(SectorHint(kg, q))
    requires items == kg.Locate(kg.FindEntitiesByType(Investor), kg.LocationIds(LocationHint(kg, q).value))
    requires forall x | x in items ::
      x.investor.kind == Investor && x.investor in kg.Values()
      && HasEdgeInto(kg.relationships, x.investor.id, OperatesIn, kg.LocationIds(LocationHint(kg, q).value))
    requires forall e | e in kg.FindEntitiesByType(Investor) && HasEdgeInto(kg.relationships, e.id, OperatesIn, kg.LocationIds(LocationHint(kg, q).value)) ::
      e in InvestorsOf(items)
    ensures forall x | x in items :: kg.InvestorAnswers(q, x.investor)
    ensures |items| == |AnswerIds(kg, q)|
    ensures DistinctIds(InvestorsOf(items))
  {
    var es := InvestorsOf(items);
    FilterKeepsDistinctIds(kg.FindEntitiesByType(Investor), EdgeInto(kg.relationships, OperatesIn, kg.LocationIds(LocationHint(kg, q).value)));
    forall e | e in es ensures kg.InvestorAnswers(q, e) {
      var i :| 0 <= i < |items| && es[i] == e;
      assert items[i] in items;
    }
    forall e | e in kg.Values() && kg.InvestorAnswers(q, e) ensures e in es {
      assert e in kg.FindEntitiesByType(Investor);
    }
    CountAnswers(kg, q, es);
  }

  lemma OnlyInSector(kg: KnowledgeGraph, q: string, inSector: seq<Entity>)
    requires kg.Valid()
    requires !DataLoader.Given(LocationHint(kg, q)) && DataLoader.Given(SectorHint(kg, q))
    requires inSector == Filter(kg.FindEntitiesByType(Investor), EdgeInto(kg.relationships, InvestsIn, kg.SectorIdsNamed(SectorHint(kg, q).value)))
    ensures forall e | e in inSector :: kg.InvestorAnswers(q, e)
    ensures |inSector| == |AnswerIds(kg, q)|
    ensures DistinctIds(inSector)
  {
    var secIds := kg.SectorIdsNamed(SectorHint(kg, q).value);
    FilterKeepsDistinctIds(kg.FindEntitiesByType(Investor), EdgeInto(kg.relationships, InvestsIn, secIds));
    forall e | e in inSector ensures kg.InvestorAnswers(q, e) {
      assert EdgeInto(kg.relationships, InvestsIn, secIds)(e);
    }
    forall e | e in kg.Values() && kg.InvestorAnswers(q, e) ensures e in inSector {
      assert e in kg.FindEntitiesByType(Investor);
      assert EdgeInto(kg.relationships, InvestsIn, secIds)(e);
    }
    CountAnswers(kg, q, inSector);
  }

  // ----- the keyword branches -----

  /** What one keyword branch adds: its parts and sources, `entities_found`
      and `relationships_traversed`. */
  datatype Retrieved = Retrieved(parts: seq<ContextPart>, sources: seq<string>, found: nat, traversed: nat)

  function SchemeCards(es: seq<Entity>): (cs: seq<ContextPart>)
    ensures |cs| == |es|
    ensures forall i | 0 <= i < |es| :: cs[i] == SchemeCard(es[i])
    ensures forall p | p in cs :: p.SchemeCard? && p.Branch() == SchemeTopic && p.scheme in es
  {
    seq(|es|, i requires 0 <= i < |es| => SchemeCard(es[i]))
  }

  function OpportunityCards(es: seq<Entity>): (cs: seq<ContextPart>)
    ensures |cs| == |es|
    ensures forall i | 0 <= i < |es| :: cs[i] == OpportunityCard(es[i])
    ensures forall p | p in cs :: p.OpportunityCard? && p.Branch() == OpportunityTopic && p.opportunity in es
  {
    seq(|es|, i requires 0 <= i < |es| => OpportunityCard(es[i]))
  }

  /** Headings, then (when there are cards) the count line and the first
      five cards, with the sources those cards cite. */
  method ShowSection(heads: seq<ContextPart>, topic: Topic, cards: seq<ContextPart>, traversed: nat) returns (c: Retrieved)
    requires forall p | p in heads :: !p.IsCard() && p.Source() == ""
    requires forall p | p in cards :: p.IsCard()
    requires forall p | p in heads :: p.Branch() == topic
    requires forall p | p in cards :: p.Branch() == topic
    ensures forall p | p in c.parts :: p.Branch() == topic
    ensures c.found == |cards| && c.traversed == traversed
    ensures c.parts == if cards == [] then heads else heads + [FoundCount(topic, |cards|)] + Take(cards, MaxCards)
    ensures CardCount(c.parts) == Min(|cards|, MaxCards)
    ensures c.sources == CitedSources(c.parts)
    ensures forall p | p in c.parts :: p in heads || p == FoundCount(topic, |cards|) || p in cards
    ensures forall p | p in heads :: p in c.parts
  {
    if cards == [] {
      PlainParts(heads);
      return Retrieved(heads, [], 0, traversed);
    }
    var shown, cited := RenderCards(cards);
    var found := [FoundCount(topic, |cards|)];
    FirstCards(cards);
    HeadedCards(heads + found, shown);
    AppendAssoc(heads, found, shown);
    assert forall p | p in shown :: p in cards;
    c := Retrieved(heads + found + shown, cited, |cards|, traversed);
  }

  /** The headings of the investor branch: the location (with the note that
      matches are inferred from it) and the sector the query names. */
  function InvestorHeads(location: Option<string>, sector: Option<string>): (heads: seq<ContextPart>)
    ensures heads == [] <==> !DataLoader.Given(location) && !DataLoader.Given(sector)
    ensures forall p | p in heads :: !p.IsCard() && p.Source() == "" && p.Branch() == InvestorTopic
    ensures InferenceNote in heads <==> DataLoader.Given(location)
  {
    if DataLoader.Given(location) && DataLoader.Given(sector) then [InvestorsHeading(location, sector), InferenceNote]
    else if DataLoader.Given(location) then [InvestorsHeading(location, None), InferenceNote]
    else if DataLoader.Given(sector) then [InvestorsHeading(None, sector)]
    else []
  }

  /** The investor branch. */
  method InvestorContext(kg: KnowledgeGraph, q: string) returns (c: Retrieved)
    requires kg.Valid()
    ensures c.parts == [] <==> !DataLoader.Given(LocationHint(kg, q)) && !DataLoader.Given(SectorHint(kg, q))
    ensures forall p | p in c.parts :: p.Branch() == InvestorTopic
    ensures CardCount(c.parts) == Min(c.found, MaxCards)
    ensures c.sources == CitedSources(c.parts)
    ensures forall p | p in c.parts :: CardAnswers(kg, q, p)
    ensures DistinctInvestorCards(c.parts)
    ensures c.found == if DataLoader.Given(LocationHint(kg, q)) || DataLoader.Given(SectorHint(kg, q)) then |AnswerIds(kg, q)| else 0
    ensures !DataLoader.Given(LocationHint(kg, q)) && !DataLoader.Given(SectorHint(kg, q)) ==> c.traversed == 0
  {
    var location, sector, items, traversed := InvestorMatches(kg, q);
    c := InvestorCardSection(InvestorHeads(location, sector), items, traversed);
    CardsAnswer(kg, q, items, c.parts);
  }

  /** The investor branch's parts for given headings and matches. */
  method InvestorCardSection(heads: seq<ContextPart>, items: seq<LocatedInvestor>, traversed: nat) returns (c: Retrieved)
    requires forall p | p in heads :: !p.IsCard() && p.Source() == "" && p.Branch() == InvestorTopic
    ensures c.parts == [] <==> heads == [] && items == []
    ensures forall p | p in c.parts :: p.Branch() == InvestorTopic
    ensures c.found == |items| && c.traversed == traversed
    ensures CardCount(c.parts) == Min(c.found, MaxCards)
    ensures c.sources == CitedSources(c.parts)
    ensures forall p | p in c.parts && p.InvestorCard? :: LocatedInvestor(p.investor, p.matchedVia) in items
    ensures DistinctIds(InvestorsOf(items)) ==> DistinctInvestorCards(c.parts)
  {
    c := ShowSection(heads, InvestorTopic, InvestorCards(items), traversed);
    if DistinctIds(InvestorsOf(items)) && items != [] {
      DistinctCardsOfDistinctInvestors(items);
      DistinctCardsShown(heads + [FoundCount(InvestorTopic, |items|)], InvestorCards(items), MaxCards);
    }
  }

  /** The first entity of `es` of kind `t`. */
  function FirstOfType(es: seq<Entity>, t: EntityType): (r: Option<Entity>)
    ensures r.Some? ==> r.value in es && r.value.kind == t
    ensures r.None? ==> forall e | e in es :: e.kind != t
    decreases |es|
  {
    if es == [] then None
    else if es[0].kind == t then Some(es[0])
    else
      var r := FirstOfType(es[1..], t);
      assert forall e | e in es[1..] :: e in es;
      r
  }

  lemma FirstOfTypeSkip(es: seq<Entity>, i: nat, t: EntityType)
    requires i < |es| && es[i].kind != t
    ensures FirstOfType(es[i..], t) == FirstOfType(es[i + 1..], t)
  {
    assert es[i..][1..] == es[i + 1..];
  }

  /** `for loc in hierarchy: if ...: break`. */
  method FindFirstOfType(es: seq<Entity>, t: EntityType) returns (r: Option<Entity>)
    ensures r == FirstOfType(es, t)
  {
    var i := 0;
    while i < |es|
      invariant 0 <= i <= |es|
      invariant FirstOfType(es[i..], t) == FirstOfType(es, t)
    {
      if es[i].kind == t {
        return Some(es[i]);
      }
      FirstOfTypeSkip(es, i, t);
      i := i + 1;
    }
    return None;
  }

  /** `city` is the name of the first city the query names, and `state` the
      name of the first state the upward walk from it meets; so a state
      above that city. */
  ghost predicate InferredFromCity(kg: KnowledgeGraph, q: string, city: string, state: string)
    reads kg
    requires kg.Valid()
  {
    var c := FirstMentioned(kg.Values(), {City}, q);
    && c.Some? && c.value.name == city
    && (var first := FirstOfType(kg.Hierarchy(c.value.id), State); first.Some? && first.value.name == state)
    && exists st | st in kg.Values() :: st.kind == State && st.name == state && Reachable(kg.relationships, c.value.id, st.id)
  }

  /** The query names a city, and the first one it names has a state above it. */
  ghost predicate CityUnderState(kg: KnowledgeGraph, q: string)
    reads kg
    requires kg.Valid()
  {
    var c := FirstMentioned(kg.Values(), {City}, q);
    c.Some? && exists st | st in kg.Values() :: st.kind == State && Reachable(kg.relationships, c.value.id, st.id)
  }

  /** The state inference of the scheme branch: walk up from the first city
      the query names and take the first state on the way. */
  method InferState(kg: KnowledgeGraph, q: string) returns (inferred: Option<ContextPart>)
    requires kg.Valid()
    ensures inferred.Some? ==> inferred.value.InferredState?
    ensures inferred.Some? ==> InferredFromCity(kg, q, inferred.value.city, inferred.value.state)
    ensures inferred.None? ==> !CityUnderState(kg, q)
  {
    var city := kg.FindMentionedEntity({City}, q);
    if city.None? {
      return None;
    }
    var hierarchy := kg.TraverseLocationHierarchy(city.value.id);
    var st := FindFirstOfType(hierarchy, State);
    if st.None? {
      return None;
    }
    assert st.value in hierarchy;
    assert kg.entities[st.value.id] in kg.Values();
    return Some(InferredState(st.value.name, city.value.name));
  }

  /** The `state_hint` of the scheme branch: the state the query names, or
      else the state found above the first city it names, with the part
      recording that inference. */
  method SchemeState(kg: KnowledgeGraph, q: string) returns (state: Option<string>, inferred: Option<ContextPart>)
    requires kg.Valid()
    ensures inferred.Some? ==>
      && inferred.value.InferredState? && state == Some(inferred.value.state)
      && InferredFromCity(kg, q, inferred.value.city, inferred.value.state)
    ensures DataLoader.Given(StateHint(kg, q)) ==> state == StateHint(kg, q) && inferred.None?
    ensures !DataLoader.Given(StateHint(kg, q)) ==> (inferred.Some? <==> CityUnderState(kg, q))
    ensures inferred.None? ==> state == StateHint(kg, q)
  {
    state := kg.FindMentioned({State}, q);
    inferred := None;
    if !DataLoader.Given(state) {
      inferred := InferState(kg, q);
      if inferred.Some? {
        state := Some(inferred.value.state);
      }
    }
  }

  /** The scheme branch: the schemes available in the state it settles on
      (`state`, inferred as `inferred` records), or all schemes when there is
      none. */
  method SchemeContext(kg: KnowledgeGraph, q: string) returns (c: Retrieved, state: Option<string>, inferred: Option<ContextPart>, ghost schemes: seq<Entity>)
    requires kg.Valid()
    ensures BranchOutcome(kg, q, SchemeTopic, c)
    ensures inferred.Some? ==>
      && inferred.value.InferredState? && state == Some(inferred.value.state)
      && InferredFromCity(kg, q, inferred.value.city, inferred.value.state)
    ensures DataLoader.Given(StateHint(kg, q)) ==> state == StateHint(kg, q) && inferred.None?
    ensures !DataLoader.Given(StateHint(kg, q)) ==> (inferred.Some? <==> CityUnderState(kg, q))
    ensures inferred.None? ==> state == StateHint(kg, q)
    ensures forall p | p in c.parts && p.InferredState? :: inferred == Some(p)
    ensures inferred.Some? ==> inferred.value in c.parts
    ensures SchemesHeading(if DataLoader.Given(state) then state else None) in c.parts
    ensures forall p | p in c.parts && p.SchemeCard? ::
      if DataLoader.Given(state) then kg.SchemeAvailable(state.value, p.scheme)
      else p.scheme in kg.Values() && p.scheme.kind == Scheme
    ensures DataLoader.Given(state) ==>
      && (forall e | e in schemes :: kg.SchemeAvailable(state.value, e))
      && (forall e | kg.SchemeAvailable(state.value, e) :: e in schemes)
    ensures !DataLoader.Given(state) ==> schemes == kg.FindEntitiesByType(Scheme)
    ensures c.found == |schemes| && c.traversed == 0
    ensures DataLoader.Given(state) ==> forall e | kg.SchemeAvailable(state.value, e) :: c.found > 0 && CardCount(c.parts) > 0
    ensures c.parts == SchemeParts(inferred, state, schemes)
  {
    state, inferred := SchemeState(kg, q);
    c, schemes := SchemeLookup(kg, q, state, inferred);
    assert schemes != [] ==> c.found > 0 && CardCount(c.parts) > 0;
  }

  /** The scheme lookup for the state the branch settled on. */
  method SchemeLookup(kg: KnowledgeGraph, q: string, state: Option<string>, inferred: Option<ContextPart>) returns (c: Retrieved, ghost schemes: seq<Entity>)
    requires kg.Valid()
    requires inferred.Some? ==> inferred.value.InferredState?
    ensures BranchOutcome(kg, q, SchemeTopic, c)
    ensures DataLoader.Given(state) ==>
      && (forall e | e in schemes :: kg.SchemeAvailable(state.value, e))
      && (forall e | kg.SchemeAvailable(state.value, e) :: e in schemes)
    ensures !DataLoader.Given(state) ==> schemes == kg.FindEntitiesByType(Scheme)
    ensures c.found == |schemes| && c.traversed == 0
    ensures forall p | p in c.parts && p.InferredState? :: inferred == Some(p)
    ensures inferred.Some? ==> inferred.value in c.parts
    ensures SchemesHeading(if DataLoader.Given(state) then state else None) in c.parts
    ensures forall p | p in c.parts && p.SchemeCard? ::
      if DataLoader.Given(state) then kg.SchemeAvailable(state.value, p.scheme)
      else p.scheme in kg.Values() && p.scheme.kind == Scheme
    ensures schemes != [] ==> c.found > 0 && CardCount(c.parts) > 0
    ensures c.parts == SchemeParts(inferred, state, schemes)
  {
    var found := SchemesFor(kg, state);
    c := SchemeCardSection(inferred, state, found);
    schemes := found;
    assert !Unanswered(kg, q, SchemeTopic);
  }

  /** `find_schemes_in_state` for a given state, else every scheme. */
  method SchemesFor(kg: KnowledgeGraph, state: Option<string>) returns (schemes: seq<Entity>)
    requires kg.Valid()
    ensures DataLoader.Given(state) ==>
      && (forall e | e in schemes :: kg.SchemeAvailable(state.value, e))
      && (forall e | kg.SchemeAvailable(state.value, e) :: e in schemes)
    ensures !DataLoader.Given(state) ==> schemes == kg.FindEntitiesByType(Scheme)
    ensures forall e | e in schemes :: e in kg.Values()
    ensures forall e | e in schemes ::
      if DataLoader.Given(state) then kg.SchemeAvailable(state.value, e)
      else e in kg.Values() && e.kind == Scheme
  {
    if DataLoader.Given(state) {
      schemes := kg.FindSchemesInState(state.value);
      assert forall e | e in schemes :: kg.SchemeAvailable(state.value, e);
    } else {
      schemes := kg.FindEntitiesByType(Scheme);
      assert forall e | e in schemes :: kg.entities[e.id] in kg.Values();
    }
  }

  /** The scheme branch's parts: the inferred state if any, the heading, the
      count and the first five schemes. */
  method SchemeCardSection(inferred: Option<ContextPart>, state: Option<string>, schemes: seq<Entity>) returns (c: Retrieved)
    requires inferred.Some? ==> inferred.value.InferredState?
    ensures c.parts != []
    ensures forall p | p in c.parts :: p.Branch() == SchemeTopic
    ensures SchemesHeading(if DataLoader.Given(state) then state else None) in c.parts
    ensures forall p | p in c.parts && p.InferredState? :: inferred == Some(p)
    ensures inferred.Some? ==> inferred.value in c.parts
    ensures forall p | p in c.parts && p.SchemeCard? :: p.scheme in schemes
    ensures c.found == |schemes| && c.traversed == 0
    ensures CardCount(c.parts) == Min(c.found, MaxCards)
    ensures c.sources == CitedSources(c.parts)
    ensures c.parts == SchemeParts(inferred, state, schemes)
  {
    c := ShowSection(SchemeHeads(inferred, state), SchemeTopic, SchemeCards(schemes), 0);
  }

  /** What the scheme branch shows: its headings, then the count and the
      first five of `schemes` when there are any. */
  function SchemeParts(inferred: Option<ContextPart>, state: Option<string>, schemes: seq<Entity>): seq<ContextPart>
    requires inferred.Some? ==> inferred.value.InferredState?
  {
    if schemes == [] then SchemeHeads(inferred, state)
    else SchemeHeads(inferred, state) + [FoundCount(SchemeTopic, |schemes|)] + Take(SchemeCards(schemes), MaxCards)
  }

  /** The headings of the scheme branch: the inferred state, if any, and the
      heading naming the state the schemes are for. */
  function SchemeHeads(inferred: Option<ContextPart>, state: Option<string>): (heads: seq<ContextPart>)
    requires inferred.Some? ==> inferred.value.InferredState?
    ensures forall p | p in heads :: !p.IsCard() && p.Source() == "" && p.Branch() == SchemeTopic
    ensures SchemesHeading(if DataLoader.Given(state) then state else None) in heads
    ensures forall p | p in heads && p.InferredState? :: inferred == Some(p)
    ensures inferred.Some? ==> inferred.value in heads
  {
    (if inferred.Some? then [inferred.value] else []) + [SchemesHeading(if DataLoader.Given(state) then state else None)]
  }

  /** The opportunity branch: every opportunity, in insertion order. */
  method OpportunityContext(kg: KnowledgeGraph) returns (c: Retrieved)
    requires kg.Valid()
    ensures c.parts != []
    ensures forall p | p in c.parts :: p.Branch() == OpportunityTopic
    ensures forall p | p in c.parts && p.OpportunityCard? :: p.opportunity in kg.Values() && p.opportunity.kind == Opportunity
    ensures c.found == |kg.FindEntitiesByType(Opportunity)|
    ensures var os := kg.FindEntitiesByType(Opportunity);
      c.parts == if os == [] then [OpportunitiesHeading]
        else [OpportunitiesHeading] + [FoundCount(OpportunityTopic, |os|)] + Take(OpportunityCards(os), MaxCards)
    ensures CardCount(c.parts) == Min(c.found, MaxCards)
    ensures c.sources == CitedSources(c.parts) && c.traversed == 0
  {
    var opportunities := kg.FindEntitiesByType(Opportunity);
    c := OpportunityCardSection(opportunities);
    assert forall e | e in opportunities :: kg.entities[e.id] in kg.Values();
  }

  /** The opportunity branch's parts: the heading, then the count and the
      first five of `os` when there are any. */
  method OpportunityCardSection(os: seq<Entity>) returns (c: Retrieved)
    ensures c.parts == if os == [] then [OpportunitiesHeading]
      else [OpportunitiesHeading] + [FoundCount(OpportunityTopic, |os|)] + Take(OpportunityCards(os), MaxCards)
    ensures forall p | p in c.parts :: p.Branch() == OpportunityTopic
    ensures forall p | p in c.parts && p.OpportunityCard? :: p.opportunity in os
    ensures c.found == |os| && c.traversed == 0
    ensures CardCount(c.parts) == Min(c.found, MaxCards)
    ensures c.sources == CitedSources(c.parts)
  {
    var heads := [OpportunitiesHeading];
    var cards := OpportunityCards(os);
    c := ShowSection(heads, OpportunityTopic, cards, 0);
  }

  /** The DPIIT branch: a fixed card and its policy source. */
  method DpiitContext() returns (c: Retrieved)
    ensures c.parts == [DpiitHeading, DpiitCard]
    ensures c.sources == CitedSources(c.parts) && c.sources == [DpiitSource]
    ensures c.found == 1 && c.traversed == 0
    ensures CardCount(c.parts) == 0
    ensures forall p | p in c.parts :: p.Branch() == DpiitTopic
  {
    c := Retrieved([DpiitHeading, DpiitCard], [DpiitSource], 1, 0);
    DpiitCites();
    DpiitCountsNoCard();
  }

  lemma DpiitCites()
    ensures CitedSources([DpiitHeading, DpiitCard]) == [DpiitSource]
  {
    assert [DpiitHeading] == [] + [DpiitHeading];
    assert [DpiitHeading, DpiitCard] == [DpiitHeading] + [DpiitCard];
    CitedSourcesSnoc([], DpiitHeading);
    CitedSourcesSnoc([DpiitHeading], DpiitCard);
  }

  lemma DpiitCountsNoCard()
    ensures CardCount([DpiitHeading, DpiitCard]) == 0
  {
    assert [DpiitHeading] == [] + [DpiitHeading];
    assert [DpiitHeading, DpiitCard] == [DpiitHeading] + [DpiitCard];
    FilterSnoc([], DpiitHeading, IsCardPart);
    FilterSnoc([DpiitHeading], DpiitCard, IsCardPart);
  }

  /** Under `topic`, the query gets no keyword answer: no group matched, or
      an investor question names neither a location nor a sector. */
  ghost predicate Unanswered(kg: KnowledgeGraph, q: string, topic: Topic)
    reads kg
    requires kg.Valid()
  {
    || topic == NoTopic
    || (topic == InvestorTopic && !DataLoader.Given(LocationHint(kg, q)) && !DataLoader.Given(SectorHint(kg, q)))
  }

  /** The query reaches the search fallback. */
  ghost predicate FallsThrough(kg: KnowledgeGraph, q: string)
    reads kg
    requires kg.Valid()
  {
    Unanswered(kg, q, TopicOf(q))
  }

  /** What the keyword branch for `topic` promises: it adds nothing exactly
      when the query is unanswered; every part is its own; it shows at most
      five cards, as many as it found up to five; it cites exactly its cards'
      sources; investor cards answer the question, scheme and opportunity
      cards are entities of the graph; an investor answer counts every
      matching investor once. */
  ghost predicate BranchOutcome(kg: KnowledgeGraph, q: string, topic: Topic, c: Retrieved)
    reads kg
    requires kg.Valid()
  {
    && (c.parts == [] <==> Unanswered(kg, q, topic))
    && (forall p | p in c.parts :: p.Branch() == topic)
    && CardCount(c.parts) <= MaxCards
    && (topic != DpiitTopic ==> CardCount(c.parts) == Min(c.found, MaxCards))
    && c.sources == CitedSources(c.parts)
    && (topic == InvestorTopic ==> forall p | p in c.parts :: CardAnswers(kg, q, p))
    && (topic == SchemeTopic ==> forall p | p in c.parts && p.SchemeCard? :: p.scheme in kg.Values())
    && (topic == OpportunityTopic ==>
          forall p | p in c.parts && p.OpportunityCard? :: p.opportunity in kg.Values() && p.opportunity.kind == Opportunity)
    && (topic == InvestorTopic && !Unanswered(kg, q, topic) ==> c.found == |AnswerIds(kg, q)|)
    && (Unanswered(kg, q, topic) ==> c.found == 0 && c.traversed == 0)
  }

  method InvestorBranch(kg: KnowledgeGraph, q: string) returns (c: Retrieved)
    requires kg.Valid()
    ensures BranchOutcome(kg, q, InvestorTopic, c)
  {
    c := InvestorContext(kg, q);
  }

  method OpportunityBranch(kg: KnowledgeGraph, q: string) returns (c: Retrieved)
    requires kg.Valid()
    ensures BranchOutcome(kg, q, OpportunityTopic, c)
  {
    c := OpportunityContext(kg);
  }

  method DpiitBranch(kg: KnowledgeGraph, q: string) returns (c: Retrieved)
    requires kg.Valid()
    ensures BranchOutcome(kg, q, DpiitTopic, c)
  {
    c := DpiitContext();
    assert !Unanswered(kg, q, DpiitTopic);
  }

  /** The keyword branches of `build_context_from_knowledge_graph`, before
      the fallback: the branch `TopicOf` picks. */
  method TopicContext(kg: KnowledgeGraph, q: string) returns (c: Retrieved)
    requires kg.Valid()
    ensures BranchOutcome(kg, q, TopicOf(q), c)
  {
    var topic := TopicOf(q);
    if topic == InvestorTopic {
      c := InvestorBranch(kg, q);
    } else if topic == SchemeTopic {
      var state, inferred;
      ghost var schemes;
      c, state, inferred, schemes := SchemeContext(kg, q);
    } else if topic == OpportunityTopic {
      c := OpportunityBranch(kg, q);
    } else if topic == DpiitTopic {
      c := DpiitBranch(kg, q);
    } else {
      c := Retrieved([], [], 0, 0);
    }
  }

  // ----- the search fallback and the whole graph context -----

  function SearchLines(hits: seq<QueryHit>): (cs: seq<ContextPart>)
    ensures |cs| == |hits|
    ensures forall p | p in cs :: p.SearchLine? && p.hit in hits && p.IsCard() && p.Branch() == NoTopic
  {
    seq(|hits|, i requires 0 <= i < |hits| => SearchLine(hits[i]))
  }

  /** A hit's non-empty source is among the hits' sources. */
  lemma HitSource(hits: seq<QueryHit>, h: QueryHit)
    requires h in hits && h.entity.properties.source != ""
    ensures h.entity.properties.source in SourcesOf(EntitiesOf(hits))
  {
    var i :| 0 <= i < |hits| && hits[i] == h;
    assert EntitiesOf(hits)[i] == h.entity;
  }

  /** The search lines cite only sources the graph query reports. */
  lemma SearchLineSources(hits: seq<QueryHit>, sources: seq<string>, parts: seq<ContextPart>)
    requires forall h | h in hits && h.entity.properties.source != "" :: h.entity.properties.source in sources
    requires forall p | p in parts :: p == SearchHeading || (p.SearchLine? && p.hit in hits)
    ensures forall p | p in parts && p.Source() != "" :: p.Source() in sources
  {
    SearchLinesCite(sources, parts);
  }

  lemma SearchLinesCite(sources: seq<string>, parts: seq<ContextPart>)
    requires forall p | p in parts ::
      p == SearchHeading || (p.SearchLine? && (p.hit.entity.properties.source != "" ==> p.hit.entity.properties.source in sources))
    ensures forall p | p in parts && p.Source() != "" :: p.Source() in sources
  {
  }

  /** The fallback: the graph query's hits under a heading, the first five
      shown, and the sources of every hit (shown or not) cited. */
  method SearchContext(kg: KnowledgeGraph, query: string) returns (c: Retrieved)
    requires kg.Valid()
    ensures forall p | p in c.parts :: p.IsSearch()
    ensures c.parts == [] <==> c.found == 0
    ensures CardCount(c.parts) == Min(c.found, MaxCards)
    ensures c.traversed == 0
    ensures Distinct(c.sources) && forall s | s in c.sources :: s != ""
    ensures forall p | p in c.parts && p.Source() != "" :: p.Source() in c.sources
    ensures AsksForInvestors(Lower(query)) ==>
      forall p | p in c.parts && p.SearchLine? :: kg.InvestorAnswers(Lower(query), p.hit.entity)
    ensures !AsksForInvestors(Lower(query)) && !AsksForSchemes(Lower(query)) && !AsksForOpportunities(Lower(query)) ==>
      c.parts == [] && c.found == 0 && c.sources == []
  {
    var hits, sources := SearchHits(kg, query);
    c := SearchSection(hits, sources);
    SearchPartsMeaning(hits, sources);
  }

  /** The fallback's parts: a heading and the first five hits, or nothing
      when there are no hits. */
  function SearchParts(hits: seq<QueryHit>): seq<ContextPart> {
    if hits == [] then [] else [SearchHeading] + Take(SearchLines(hits), MaxCards)
  }

  /** The fallback's parts are all search parts, show up to five hits and
      cite only sources the hits have. */
  lemma SearchPartsMeaning(hits: seq<QueryHit>, sources: seq<string>)
    requires forall h | h in hits && h.entity.properties.source != "" :: h.entity.properties.source in sources
    ensures SearchParts(hits) == [] <==> hits == []
    ensures forall p | p in SearchParts(hits) :: p.IsSearch()
    ensures CardCount(SearchParts(hits)) == Min(|hits|, MaxCards)
    ensures forall p | p in SearchParts(hits) && p.SearchLine? :: p.hit in hits
    ensures forall p | p in SearchParts(hits) && p.Source() != "" :: p.Source() in sources
  {
    if hits != [] {
      var lines := SearchLines(hits);
      FirstCards(lines);
      HeadedCards([SearchHeading], Take(lines, MaxCards));
      assert forall p | p in Take(lines, MaxCards) :: p in lines;
      SearchLineSources(hits, sources, SearchParts(hits));
    } else {
      PlainParts([]);
    }
  }

  /** The fallback's parts for the graph query's hits and sources. */
  method SearchSection(hits: seq<QueryHit>, sources: seq<string>) returns (c: Retrieved)
    ensures c.parts == SearchParts(hits)
    ensures c.found == |hits| && c.traversed == 0
    ensures c.sources == if hits == [] then [] else sources
  {
    if hits == [] {
      return Retrieved([], [], 0, 0);
    }
    var shown, cited := RenderCards(SearchLines(hits));
    c := Retrieved([SearchHeading] + shown, sources, |hits|, 0);
  }

  /** What the fallback uses of the graph query. */
  method SearchHits(kg: KnowledgeGraph, query: string) returns (hits: seq<QueryHit>, sources: seq<string>)
    requires kg.Valid()
    ensures sources == Dedup(SourcesOf(EntitiesOf(hits)))
    ensures Distinct(sources) && forall s | s in sources :: s != ""
    ensures forall h | h in hits && h.entity.properties.source != "" :: h.entity.properties.source in sources
    ensures AsksForInvestors(Lower(query)) ==> forall h | h in hits :: kg.InvestorAnswers(Lower(query), h.entity)
    ensures !AsksForInvestors(Lower(query)) && !AsksForSchemes(Lower(query)) && !AsksForOpportunities(Lower(query)) ==>
      hits == []
  {
    var r := kg.ExecuteCypherLikeQuery(query);
    hits, sources := r.hits, r.sources;
    forall h | h in hits && h.entity.properties.source != "" ensures h.entity.properties.source in sources {
      HitSource(hits, h);
    }
  }

  /** A search part belongs to no keyword branch. */
  lemma SearchIsNoBranch(parts: seq<ContextPart>, topic: Topic)
    requires topic != NoTopic
    requires forall p | p in parts :: p.Branch() == topic
    ensures forall p | p in parts :: !p.IsSearch()
  {
  }

  /** The keyword branch for the query, or the fallback search when it adds
      nothing. */
  method KeywordOrSearch(kg: KnowledgeGraph, query: string) returns (c: Retrieved)
    requires kg.Valid()
    ensures !FallsThrough(kg, Lower(query)) ==> BranchOutcome(kg, Lower(query), TopicOf(Lower(query)), c)
    ensures !FallsThrough(kg, Lower(query)) ==> forall p | p in c.parts :: !p.IsSearch()
    ensures FallsThrough(kg, Lower(query)) ==> forall p | p in c.parts :: p.IsSearch()
    ensures FallsThrough(kg, Lower(query)) && c.parts != [] ==> TopicOf(Lower(query)) == InvestorTopic
    ensures FallsThrough(kg, Lower(query)) ==> (c.parts == [] <==> c.found == 0)
    ensures FallsThrough(kg, Lower(query)) ==>
      && CardCount(c.parts) == Min(c.found, MaxCards) && c.traversed == 0
      && Distinct(c.sources) && (forall s | s in c.sources :: s != "")
      && (forall p | p in c.parts && p.Source() != "" :: p.Source() in c.sources)
    ensures FallsThrough(kg, Lower(query)) && AsksForInvestors(Lower(query)) ==>
      forall p | p in c.parts && p.SearchLine? :: kg.InvestorAnswers(Lower(query), p.hit.entity)
  {
    var q := Lower(query);
    c := TopicContext(kg, q);
    if c.parts == [] {
      TopicsCoverGraphQuery(q);
      c := SearchContext(kg, query);
    } else {
      SearchIsNoBranch(c.parts, TopicOf(q));
    }
  }

  /** `build_context_from_knowledge_graph`: the keyword branch for the
      query, or the search fallback, with each source once. */
  method GraphContext(kg: KnowledgeGraph, query: string) returns (ctx: Context)
    requires kg.Valid()
    ensures ctx.retrieval.GraphRetrieval?
    ensures Distinct(ctx.sources) && forall s | s in ctx.sources :: s != ""
    ensures forall p | p in ctx.parts && p.Source() != "" :: p.Source() in ctx.sources
    ensures !FallsThrough(kg, Lower(query)) ==>
      && ctx.parts != []
      && (forall p | p in ctx.parts :: p.Branch() == TopicOf(Lower(query)) && !p.IsSearch())
      && (forall s | s in ctx.sources :: exists p | p in ctx.parts :: p.Source() == s)
    ensures FallsThrough(kg, Lower(query)) ==> forall p | p in ctx.parts :: p.IsSearch()
    ensures FallsThrough(kg, Lower(query)) ==> (ctx.parts == [] <==> ctx.retrieval.entitiesFound == 0)
    ensures (exists p | p in ctx.parts :: p.IsSearch()) ==> TopicOf(Lower(query)) == InvestorTopic
    ensures CardCount(ctx.parts) <= MaxCards
    ensures TopicOf(Lower(query)) != DpiitTopic ==> CardCount(ctx.parts) == Min(ctx.retrieval.entitiesFound, MaxCards)
    ensures TopicOf(Lower(query)) == InvestorTopic ==> forall p | p in ctx.parts :: CardAnswers(kg, Lower(query), p)
    ensures AsksForInvestors(Lower(query)) ==>
      forall p | p in ctx.parts && p.SearchLine? :: kg.InvestorAnswers(Lower(query), p.hit.entity)
    ensures TopicOf(Lower(query)) == InvestorTopic && !FallsThrough(kg, Lower(query)) ==>
      ctx.retrieval.entitiesFound == |AnswerIds(kg, Lower(query))|
  {
    var c := KeywordOrSearch(kg, query);
    CitedSourcesMeaning(c.parts);
    ctx := Context(c.parts, Dedup(c.sources), GraphRetrieval(c.found, c.traversed));
  }

  /** `build_context_from_knowledge_graph` as called: without a knowledge
      graph, the seed-data fallback; with one, the graph context. Either way
      each source is listed once and every part's source is among them. */
  method BuildContextFromKnowledgeGraph(kg: KnowledgeGraph?, seed: DataLoader.SeedData, query: string) returns (ctx: Context)
    requires kg != null ==> kg.Valid()
    ensures kg == null ==>
      && ctx.parts == InvestorPart(seed, Lower(query)) + SchemePart(seed, Lower(query))
      && ctx.retrieval == KeywordRetrieval
      && (forall s | s in ctx.sources :: exists p | p in ctx.parts :: p.Source() == s)
    ensures kg != null ==> ctx.retrieval.GraphRetrieval?
    ensures kg != null && !FallsThrough(kg, Lower(query)) ==> ctx.parts != []
    ensures kg != null && FallsThrough(kg, Lower(query)) ==>
      (forall p | p in ctx.parts :: p.IsSearch()) && (ctx.parts == [] <==> ctx.retrieval.entitiesFound == 0)
    ensures kg != null && TopicOf(Lower(query)) == InvestorTopic && !FallsThrough(kg, Lower(query)) ==>
      ctx.retrieval.entitiesFound == |AnswerIds(kg, Lower(query))|
    ensures Distinct(ctx.sources) && forall s | s in ctx.sources :: s != ""
    ensures forall p | p in ctx.parts && p.Source() != "" :: p.Source() in ctx.sources
  {
    if kg == null {
      ctx := BuildContextFromData(seed, query);
      CitedSourcesMeaning(ctx.parts);
    } else {
      ctx := GraphContext(kg, query);
    }
  }

  // ----- chat_with_citations -----

  /** What became of the language model for one question: none configured,
      a call that raised, or the text it replied with. */
  datatype LlmOutcome = NoModel | ModelFails | ModelReplies(text: string)

  /** The citation format the model is asked to use. */
  const SourceMarker := "[Source:"

  /** The answer, by how it was produced. The fixed wording around it is not
      modelled. */
  datatype Answer =
    /** The model's reply, followed by a sources line naming `appended`
        when that list is non-empty. */
    | ModelAnswer(reply: string, appended: seq<string>)
    /** The context itself, with a sources line naming `cited`, or naming the
        local knowledge graph when `cited` is empty. */
    | LookupAnswer(context: seq<ContextPart>, cited: seq<string>)
    /** The suggestion to ask about investors, schemes or opportunities. */
    | NoMatchAnswer

  /** The sources the answer text names. */
  function Cited(a: Answer): seq<string> {
    match a
    case ModelAnswer(_, appended) => appended
    case LookupAnswer(_, cited) => cited
    case NoMatchAnswer => []
  }

  datatype ChatResponse = ChatResponse(answer: Answer, sources: seq<string>, contextUsed: bool, stats: Retrieval)

  /** The answer to a question, given its context and the model's outcome.
      A model that fails is answered for as if there were none; with no
      context the model is not consulted. */
  function Respond(ctx: Context, llm: LlmOutcome): (r: ChatResponse)
    ensures r.contextUsed <==> ctx.parts != []
    ensures r.contextUsed ==> r.sources == ctx.sources && r.stats == ctx.retrieval
    ensures !r.contextUsed ==> r == ChatResponse(NoMatchAnswer, [], false, NoMatch)
    ensures Cited(r.answer) <= r.sources && |Cited(r.answer)| <= MaxCited
    ensures r.contextUsed && llm.ModelReplies? ==>
      && r.answer.ModelAnswer? && r.answer.reply == llm.text
      && (r.answer.appended != [] <==> ctx.sources != [] && !Contains(llm.text, SourceMarker))
    ensures r.contextUsed && !llm.ModelReplies? ==> r.answer.LookupAnswer? && r.answer.context == ctx.parts
    ensures Cited(r.answer) != [] ==> Cited(r.answer) == Take(ctx.sources, MaxCited)
    ensures r.answer.LookupAnswer? ==> (Cited(r.answer) == [] <==> ctx.sources == [])
  {
    if ctx.parts == [] then ChatResponse(NoMatchAnswer, [], false, NoMatch)
    else
      var answer :=
        if llm.ModelReplies? then
          ModelAnswer(llm.text, if ctx.sources != [] && !Contains(llm.text, SourceMarker) then Take(ctx.sources, MaxCited) else [])
        else LookupAnswer(ctx.parts, Take(ctx.sources, MaxCited));
      ChatResponse(answer, ctx.sources, true, ctx.retrieval)
  }

  /** A model call that raises leaves the same answer as no model at all. */
  lemma FailingModelIsNoModel(ctx: Context)
    ensures Respond(ctx, ModelFails) == Respond(ctx, NoModel)
  {
  }

  /** `chat_with_citations`: the context for the question (`ctx`), then the
      answer `Respond` gives for it: context is used exactly when some was
      retrieved, and on the graph's search fallback that is exactly when the
      search found something. */
  method ChatWithCitations(kg: KnowledgeGraph?, seed: DataLoader.SeedData, userQuery: string, llm: LlmOutcome)
    returns (r: ChatResponse, ghost ctx: Context)
    requires kg != null ==> kg.Valid()
    ensures r == Respond(ctx, llm)
    ensures r.contextUsed <==> ctx.parts != []
    ensures r.contextUsed && llm.ModelReplies? ==> r.answer.ModelAnswer? && r.answer.reply == llm.text
    ensures r.contextUsed && !llm.ModelReplies? ==> r.answer.LookupAnswer? && r.answer.context == ctx.parts
    ensures kg == null ==> ctx.parts == InvestorPart(seed, Lower(userQuery)) + SchemePart(seed, Lower(userQuery))
    ensures kg != null ==> ctx.retrieval.GraphRetrieval?
    ensures kg != null && FallsThrough(kg, Lower(userQuery)) ==>
      (forall p | p in ctx.parts :: p.IsSearch()) && (r.contextUsed <==> ctx.retrieval.entitiesFound != 0)
    ensures Distinct(r.sources) && forall s | s in r.sources :: s != ""
    ensures Cited(r.answer) <= r.sources && |Cited(r.answer)| <= MaxCited
    ensures r.contextUsed ==> (kg == null <==> r.stats == KeywordRetrieval) && (kg != null <==> r.stats.GraphRetrieval?)
    ensures !r.contextUsed ==> r.stats == NoMatch && r.sources == []
    ensures kg == null ==>
      (r.contextUsed <==> InvestorPart(seed, Lower(userQuery)) + SchemePart(seed, Lower(userQuery)) != [])
    ensures kg != null && !FallsThrough(kg, Lower(userQuery)) ==> r.contextUsed
    ensures kg != null && r.contextUsed && TopicOf(Lower(userQuery)) == InvestorTopic && !FallsThrough(kg, Lower(userQuery)) ==>
      r.stats.entitiesFound == |AnswerIds(kg, Lower(userQuery))|
  {
    var context := BuildContextFromKnowledgeGraph(kg, seed, userQuery);
    ctx := context;
    r := Respond(context, llm);
  }

  // ----- get_dashboard_insights -----

  const BaseScore: int := 50
  const DpiitBonus: int := 15
  const RevenueBonus: int := 20
  const TeamBonus: int := 10
  const StageBonus: int := 5
  const MinTeamSize: int := 3
  /** The stages that earn the stage bonus, compared with their exact case. */
  const ScoredStages: seq<string> := ["MVP", "Revenue"]

  predicate ScoredStage(stage: Option<string>) {
    stage.Some? && stage.value in ScoredStages
  }

  /** The score before the cap: the base plus each bonus the profile earns. */
  function FundingScore(user: DataLoader.UserProfile): (s: int)
    ensures BaseScore <= s <= BaseScore + DpiitBonus + RevenueBonus + TeamBonus + StageBonus
    ensures s == BaseScore <==>
      !user.dpiitRegistered && user.monthlyRevenue <= 0 && user.teamSize < MinTeamSize && !ScoredStage(user.stage)
  {
    BaseScore
    + (if user.dpiitRegistered then DpiitBonus else 0)
    + (if user.monthlyRevenue > 0 then RevenueBonus else 0)
    + (if user.teamSize >= MinTeamSize then TeamBonus else 0)
    + (if ScoredStage(user.stage) then StageBonus else 0)
  }

  /** `funding_probability`: the score, capped. */
  function FundingProbability(user: DataLoader.UserProfile): (p: int)
    ensures BaseScore <= p <= ProbabilityCap
    ensures p == FundingScore(user) || p == ProbabilityCap
  {
    Min(FundingScore(user), ProbabilityCap)
  }

  /** Registering with DPIIT adds the fifteen points the action promises,
      except that the cap can absorb part or all of them. */
  lemma RegistrationGain(user: DataLoader.UserProfile)
    requires !user.dpiitRegistered
    ensures FundingScore(user.(dpiitRegistered := true)) == FundingScore(user) + DpiitBonus
    ensures FundingProbability(user.(dpiitRegistered := true)) == Min(FundingProbability(user) + DpiitBonus, ProbabilityCap)
    ensures FundingProbability(user.(dpiitRegistered := true)) == FundingProbability(user) + DpiitBonus
      <==> FundingScore(user) + DpiitBonus <= ProbabilityCap
  {
  }

  /** `stronger` earns every bonus `weaker` earns. */
  predicate EarnsEveryBonusOf(stronger: DataLoader.UserProfile, weaker: DataLoader.UserProfile) {
    && (weaker.dpiitRegistered ==> stronger.dpiitRegistered)
    && (weaker.monthlyRevenue > 0 ==> stronger.monthlyRevenue > 0)
    && (weaker.teamSize >= MinTeamSize ==> stronger.teamSize >= MinTeamSize)
    && (ScoredStage(weaker.stage) ==> ScoredStage(stronger.stage))
  }

  /** Improving the profile never lowers the probability. */
  lemma ProbabilityMonotone(stronger: DataLoader.UserProfile, weaker: DataLoader.UserProfile)
    requires EarnsEveryBonusOf(stronger, weaker)
    ensures FundingScore(weaker) <= FundingScore(stronger)
    ensures FundingProbability(weaker) <= FundingProbability(stronger)
  {
  }

  datatype Priority = High | Medium

  /** An entry of `recommended_actions`. */
  datatype DashboardAction =
    | RegisterDpiit
    | PitchTo(investorName: string)
    | ApplyFor(schemeName: string, fundingAmount: string)
    | ParticipateIn(opportunityName: string, prize: string)
  {
    function Priority(): Priority {
      if RegisterDpiit? || ApplyFor? then High else Medium
    }

    /** The `impact` line: fixed for the first two, the scheme's funding
        amount and the opportunity's prize for the others. */
    function Impact(): string {
      match this
      case RegisterDpiit => "+15% funding probability"
      case PitchTo(_) => "Local angel network match"
      case ApplyFor(_, amount) => amount
      case ParticipateIn(_, prize) => prize
    }

    /** The position of this kind of action in the order they are added. */
    function Rank(): nat {
      match this
      case RegisterDpiit => 0
      case PitchTo(_) => 1
      case ApplyFor(_, _) => 2
      case ParticipateIn(_, _) => 3
    }
  }

  /** The actions for a profile, from the matching investors' names in the
      order the dashboard has them and the matching schemes and
      opportunities: each kind at most once, for the first of its list. */
  function RecommendedActions(registered: bool, investorNames: seq<string>, schemes: seq<DataLoader.Scheme>,
                              opportunities: seq<DataLoader.Opportunity>): seq<DashboardAction>
  {
    Take(ActionSteps(registered, investorNames, schemes, opportunities), MaxActions)
  }

  /** The list before the cut: at most one action of each kind, in rank order. */
  function ActionSteps(registered: bool, investorNames: seq<string>, schemes: seq<DataLoader.Scheme>,
                                  opportunities: seq<DataLoader.Opportunity>): (r: seq<DashboardAction>)
    ensures |r| == (if !registered then 1 else 0) + (if investorNames != [] then 1 else 0)
                 + (if schemes != [] then 1 else 0) + (if opportunities != [] then 1 else 0)
  {
    (if !registered then [RegisterDpiit] else [])
    + (if investorNames != [] then [PitchTo(investorNames[0])] else [])
    + (if schemes != [] then [ApplyFor(schemes[0].name, schemes[0].fundingAmount)] else [])
    + (if opportunities != [] then [ParticipateIn(opportunities[0].name, opportunities[0].prize)] else [])
  }

  /** Registration is recommended exactly to an unregistered founder, and a
      pitch exactly when an investor matches, naming the first of them. */
  lemma RecommendedRegistrationAndPitch(registered: bool, investorNames: seq<string>, schemes: seq<DataLoader.Scheme>,
                                  opportunities: seq<DataLoader.Opportunity>)
    ensures var r := RecommendedActions(registered, investorNames, schemes, opportunities);
      && (RegisterDpiit in r <==> !registered)
      && (forall n :: PitchTo(n) in r <==> investorNames != [] && n == investorNames[0])
  {
    assert RecommendedActions(registered, investorNames, schemes, opportunities) == ActionSteps(registered, investorNames, schemes, opportunities);
  }

  /** An application is recommended exactly when a scheme matches, and a
      participation exactly when an opportunity does, each naming the first. */
  lemma RecommendedApplicationAndParticipation(registered: bool, investorNames: seq<string>, schemes: seq<DataLoader.Scheme>,
                                  opportunities: seq<DataLoader.Opportunity>)
    ensures var r := RecommendedActions(registered, investorNames, schemes, opportunities);
      && (forall s, f :: ApplyFor(s, f) in r <==> schemes != [] && s == schemes[0].name && f == schemes[0].fundingAmount)
      && (forall o, p :: ParticipateIn(o, p) in r <==>
            opportunities != [] && o == opportunities[0].name && p == opportunities[0].prize)
  {
    assert RecommendedActions(registered, investorNames, schemes, opportunities) == ActionSteps(registered, investorNames, schemes, opportunities);
  }

  /** The rank of the `i`-th action is fixed by how many kinds come before it. */
  lemma RankAt(a: seq<DashboardAction>, b: seq<DashboardAction>, c: seq<DashboardAction>, d: seq<DashboardAction>, i: int)
    requires |a| <= 1 && |b| <= 1 && |c| <= 1 && |d| <= 1
    requires forall x | x in a :: x.Rank() == 0
    requires forall x | x in b :: x.Rank() == 1
    requires forall x | x in c :: x.Rank() == 2
    requires forall x | x in d :: x.Rank() == 3
    requires 0 <= i < |a + b + c + d|
    ensures (a + b + c + d)[i].Rank() ==
      if i < |a| then 0 else if i < |a| + |b| then 1 else if i < |a| + |b| + |c| then 2 else 3
  {
    var r := a + b + c + d;
    if i < |a| { assert r[i] == a[i]; }
    else if i < |a| + |b| { assert r[i] == b[i - |a|]; }
    else if i < |a| + |b| + |c| { assert r[i] == c[i - |a| - |b|]; }
    else { assert r[i] == d[i - |a| - |b| - |c|]; }
  }

  /** The actions come in the order they are added, one of each kind at most,
      so the cut at four removes nothing. */
  lemma RecommendedActionsOrder(registered: bool, investorNames: seq<string>, schemes: seq<DataLoader.Scheme>,
                                  opportunities: seq<DataLoader.Opportunity>)
    ensures var r := RecommendedActions(registered, investorNames, schemes, opportunities);
      && (forall i, j | 0 <= i < j < |r| :: r[i].Rank() < r[j].Rank())
      && |r| == (if !registered then 1 else 0) + (if investorNames != [] then 1 else 0)
              + (if schemes != [] then 1 else 0) + (if opportunities != [] then 1 else 0)
  {
    var a := if !registered then [RegisterDpiit] else [];
    var b := if investorNames != [] then [PitchTo(investorNames[0])] else [];
    var c := if schemes != [] then [ApplyFor(schemes[0].name, schemes[0].fundingAmount)] else [];
    var d := if opportunities != [] then [ParticipateIn(opportunities[0].name, opportunities[0].prize)] else [];
    var r := a + b + c + d;
    assert RecommendedActions(registered, investorNames, schemes, opportunities) == r;
    forall i, j | 0 <= i < j < |r| ensures r[i].Rank() < r[j].Rank() {
      RankAt(a, b, c, d, i);
      RankAt(a, b, c, d, j);
    }
  }

  /** The `actions.append` steps and the final cut. */
  method Recommend(registered: bool, investorNames: seq<string>, schemes: seq<DataLoader.Scheme>,
                   opportunities: seq<DataLoader.Opportunity>) returns (actions: seq<DashboardAction>)
    ensures actions == RecommendedActions(registered, investorNames, schemes, opportunities)
  {
    actions := [];
    if !registered {
      actions := actions + [RegisterDpiit];
    }
    if investorNames != [] {
      actions := actions + [PitchTo(investorNames[0])];
    }
    if schemes != [] {
      actions := actions + [ApplyFor(schemes[0].name, schemes[0].fundingAmount)];
    }
    if opportunities != [] {
      actions := actions + [ParticipateIn(opportunities[0].name, opportunities[0].prize)];
    }
    actions := Take(actions, MaxActions);
  }

  /** The `score += …` steps and the cap. */
  method ScoreProfile(user: DataLoader.UserProfile) returns (probability: int)
    ensures probability == FundingProbability(user)
  {
    var score := BaseScore;
    if user.dpiitRegistered {
      score := score + DpiitBonus;
    }
    if user.monthlyRevenue > 0 {
      score := score + RevenueBonus;
    }
    if user.teamSize >= MinTeamSize {
      score := score + TeamBonus;
    }
    if ScoredStage(user.stage) {
      score := score + StageBonus;
    }
    probability := Min(score, ProbabilityCap);
  }

  /** The returned insights. */
  datatype Insights = Insights(
    fundingProbability: int,
    matchingInvestors: nat,
    applicableSchemes: nat,
    activeOpportunities: nat,
    recommendedActions: seq<DashboardAction>,
    userProfile: DataLoader.UserProfile,
    knowledgeGraphEnabled: bool)

  /** Where the graph looks for the founder's investors: the profile's
      `location`, or its `state` when it has none. */
  function ProfileLocation(user: DataLoader.UserProfile): string {
    if user.location.Some? then user.location.value else user.state.GetOr("")
  }

  /** An investor of the graph that operates in the hierarchy of `location`
      and invests in a sector named like `sector`. */
  ghost predicate DashboardMatch(kg: KnowledgeGraph, location: string, sector: string, e: Entity)
    reads kg
    requires kg.Valid()
  {
    && e in kg.Values() && e.kind == Investor
    && HasEdgeInto(kg.relationships, e.id, OperatesIn, kg.LocationIds(location))
    && HasEdgeInto(kg.relationships, e.id, InvestsIn, kg.SectorIdsNamed(sector))
  }

  /** The ids of the graph investors that match the founder's profile; none
      when the profile gives no location. */
  ghost function DashboardMatchIds(kg: KnowledgeGraph, user: DataLoader.UserProfile): set<string>
    reads kg
    requires kg.Valid()
  {
    if ProfileLocation(user) == "" then {}
    else set e | e in kg.Values() && DashboardMatch(kg, ProfileLocation(user), user.sector.GetOr(""), e) :: e.id
  }

  /** `n` is the name of a graph investor that matches the founder's profile. */
  ghost predicate MatchName(kg: KnowledgeGraph, user: DataLoader.UserProfile, n: string)
    reads kg
    requires kg.Valid()
  {
    && ProfileLocation(user) != ""
    && exists e | e in kg.Values() :: DashboardMatch(kg, ProfileLocation(user), user.sector.GetOr(""), e) && e.name == n
  }

  /** The seed investors that match the founder's sector and state. */
  function DataMatches(seed: DataLoader.SeedData): seq<DataLoader.Investor> {
    Filter(seed.investors, DataLoader.InvestorFilter(seed.userProfile.sector, seed.userProfile.state, None))
  }

  function DashboardSchemes(seed: DataLoader.SeedData): seq<DataLoader.Scheme> {
    Filter(seed.schemes, DataLoader.SchemeFilter(seed.userProfile.state, seed.userProfile.stage))
  }

  function DashboardOpportunities(seed: DataLoader.SeedData): seq<DataLoader.Opportunity> {
    Filter(seed.opportunities, DataLoader.OpportunityFilter(seed.userProfile.sector, None))
  }

  /** The names of a list of records (seed investors or graph entities), in order. */
  function Names<T>(xs: seq<T>, name: T -> string): (ns: seq<string>)
    ensures |ns| == |xs| && forall i | 0 <= i < |xs| :: ns[i] == name(xs[i])
  {
    seq(|xs|, i requires 0 <= i < |xs| => name(xs[i]))
  }

  /** The names of the graph investors matching the founder's profile, as
      many as there are matching ids. */
  method GraphMatches(kg: KnowledgeGraph, user: DataLoader.UserProfile) returns (names: seq<string>)
    requires kg.Valid()
    ensures |names| == |DashboardMatchIds(kg, user)|
    ensures forall n | n in names :: MatchName(kg, user, n)
  {
    var location := ProfileLocation(user);
    if location == "" {
      return [];
    }
    var investors := kg.InvestorsInBoth(location, user.sector.GetOr(""));
    names := Names(investors, (e: Entity) => e.name);
    assert IdsOf(investors) == DashboardMatchIds(kg, user);
    DistinctIdsCardinality(investors);
    forall i | 0 <= i < |investors| ensures MatchName(kg, user, names[i]) {
      var e := investors[i];
      assert e in investors && e.name == names[i];
    }
  }

  /** `get_dashboard_insights`: the founder's capped score, the investors,
      schemes and opportunities that match the profile, and the actions
      recommended from them. `investorNames` are the matching investors'
      names in the order the dashboard takes the first of them. */
  method GetDashboardInsights(kg: KnowledgeGraph?, seed: DataLoader.SeedData) returns (r: Insights, ghost investorNames: seq<string>)
    requires kg != null ==> kg.Valid()
    ensures r.fundingProbability == FundingProbability(seed.userProfile)
    ensures r.applicableSchemes == |DashboardSchemes(seed)|
    ensures r.activeOpportunities == |DashboardOpportunities(seed)|
    ensures kg == null ==> investorNames == Names(DataMatches(seed), (inv: DataLoader.Investor) => inv.name)
    ensures kg != null ==> |investorNames| == |DashboardMatchIds(kg, seed.userProfile)|
    ensures kg != null ==> forall n | n in investorNames :: MatchName(kg, seed.userProfile, n)
    ensures r.matchingInvestors == |investorNames|
    ensures r.recommendedActions ==
      RecommendedActions(seed.userProfile.dpiitRegistered, investorNames, DashboardSchemes(seed), DashboardOpportunities(seed))
    ensures r.userProfile == seed.userProfile && r.knowledgeGraphEnabled == (kg != null)
  {
    var user := seed.userProfile;
    var probability := ScoreProfile(user);
    var names: seq<string>;
    if kg != null {
      names := GraphMatches(kg, user);
    } else {
      var investors := DataLoader.GetInvestors(seed.investors, user.sector, user.state, None);
      names := Names(investors, (inv: DataLoader.Investor) => inv.name);
    }
    var schemes := DataLoader.GetSchemes(seed.schemes, user.state, user.stage);
    var opportunities := DataLoader.GetOpportunities(seed.opportunities, user.sector, None);
    var actions := Recommend(user.dpiitRegistered, names, schemes, opportunities);
    r := Insights(probability, |names|, |schemes|, |opportunities|, actions, user, kg != null);
    investorNames := names;
  }
}
