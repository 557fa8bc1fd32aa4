/** The seed catalogue and its filter queries (backend/data_loader.py).
    The seed file is passed in as a value; loading and caching it is I/O. */
module DataLoader {
  import opened Wrappers
  import opened Seqs
  import opened Text

  /** An investor record. Absent optional keys read as "" or [] (the
      `.get(key, default)` defaults); `source` keeps absence apart because its
      default depends on the caller. */
  datatype Investor = Investor(
    id: string,
    name: string,
    kind: string,
    location: string,
    state: string,
    sectors: seq<string>,
    stages: seq<string>,
    ticketSize: string,
    investmentThesis: string,
    contactEmail: string,
    source: Option<string>,
    portfolioCompanies: seq<string>)

  /** A government scheme; `eligibleStages` is its `eligibility.stage` list. */
  datatype Scheme = Scheme(
    id: string,
    name: string,
    kind: string,
    department: string,
    fundingAmount: string,
    state: string,
    eligibleStages: seq<string>,
    applicationProcess: string,
    link: string,
    source: Option<string>)

  /** A hackathon, grant or accelerator; `eligibleSectors` is its `eligibility.sectors` list. */
  datatype Opportunity = Opportunity(
    id: string,
    name: string,
    kind: string,
    organizer: string,
    prize: string,
    deadline: string,
    eligibleSectors: seq<string>,
    benefits: seq<string>,
    link: string,
    source: Option<string>)

  /** One entry of `locations.states`, keyed by its name in the seed file. */
  datatype StateRecord = StateRecord(
    name: string,
    region: string,
    cities: seq<string>,
    startupHub: string,
    keySectors: seq<string>)

  /** The demo founder's profile; absent keys are `None` (or 0 and false for the
      numeric and boolean ones, as their `.get` defaults say). */
  datatype UserProfile = UserProfile(
    sector: Option<string>,
    stage: Option<string>,
    location: Option<string>,
    state: Option<string>,
    monthlyRevenue: int,
    teamSize: int,
    dpiitRegistered: bool)

  /** A step of a stored funding route; its contents are never inspected. */
  type RouteStep = string

  datatype SeedData = SeedData(
    states: seq<StateRecord>,
    investors: seq<Investor>,
    schemes: seq<Scheme>,
    opportunities: seq<Opportunity>,
    fundingRoutes: map<string, seq<RouteStep>>,
    userProfile: UserProfile)

  /** A filter argument takes part only when it is truthy: neither `None` nor "". */
  predicate Given(filter: Option<string>) {
    filter.Some? && filter.value != ""
  }

  // ----- get_investors -----

  /** Every supplied filter holds: sector membership, state equality and stage
      membership, all ignoring case. */
  predicate InvestorMatches(inv: Investor, sector: Option<string>, state: Option<string>, stage: Option<string>) {
    && (Given(sector) ==> MemberIgnoringCase(sector.value, inv.sectors))
    && (Given(state) ==> Lower(inv.state) == Lower(state.value))
    && (Given(stage) ==> MemberIgnoringCase(stage.value, inv.stages))
  }

  function InvestorFilter(sector: Option<string>, state: Option<string>, stage: Option<string>): Investor -> bool {
    inv => InvestorMatches(inv, sector, state, stage)
  }

  method GetInvestors(investors: seq<Investor>, sector: Option<string>, state: Option<string>, stage: Option<string>)
    returns (results: seq<Investor>)
    ensures results == Filter(investors, InvestorFilter(sector, state, stage))
    ensures IsSubsequence(results, investors)
    ensures forall inv | inv in results :: InvestorMatches(inv, sector, state, stage)
  {
    results := [];
    for i := 0 to |investors|
      invariant results == Filter(investors[..i], InvestorFilter(sector, state, stage))
    {
      var inv := investors[i];
      var matches := true;
      if Given(sector) && !MemberIgnoringCase(sector.value, inv.sectors) {
        matches := false;
      }
      if Given(state) && Lower(inv.state) != Lower(state.value) {
        matches := false;
      }
      if Given(stage) && !MemberIgnoringCase(stage.value, inv.stages) {
        matches := false;
      }
      FilterPrefixStep(investors, i, InvestorFilter(sector, state, stage));
      if matches {
        results := results + [inv];
      }
    }
    assert investors[..|investors|] == investors;
    FilterIsSubsequence(investors, InvestorFilter(sector, state, stage));
  }

  /** With no filter supplied every investor is returned, in order. */
  lemma InvestorsUnfiltered(investors: seq<Investor>, sector: Option<string>, state: Option<string>, stage: Option<string>)
    requires !Given(sector) && !Given(state) && !Given(stage)
    ensures Filter(investors, InvestorFilter(sector, state, stage)) == investors
  {
    FilterAll(investors, InvestorFilter(sector, state, stage));
  }

  /** Supplying one more filter keeps an order-preserving part of the result. */
  lemma InvestorFiltersOnlyShrink(investors: seq<Investor>, sector: Option<string>, state: Option<string>, stage: Option<string>)
    ensures IsSubsequence(Filter(investors, InvestorFilter(sector, state, stage)), Filter(investors, InvestorFilter(None, state, stage)))
    ensures IsSubsequence(Filter(investors, InvestorFilter(sector, state, stage)), Filter(investors, InvestorFilter(sector, None, stage)))
    ensures IsSubsequence(Filter(investors, InvestorFilter(sector, state, stage)), Filter(investors, InvestorFilter(sector, state, None)))
  {
    var all := InvestorFilter(sector, state, stage);
    FilterStronger(investors, InvestorFilter(None, state, stage), all);
    FilterStronger(investors, InvestorFilter(sector, None, stage), all);
    FilterStronger(investors, InvestorFilter(sector, state, None), all);
  }

  // ----- get_schemes -----

  /** A scheme without a state passes any state filter; one without listed
      eligible stages passes any stage filter. */
  predicate SchemeMatches(scheme: Scheme, state: Option<string>, stage: Option<string>) {
    && (Given(state) && scheme.state != "" ==> Lower(scheme.state) == Lower(state.value))
    && (Given(stage) && scheme.eligibleStages != [] ==> MemberIgnoringCase(stage.value, scheme.eligibleStages))
  }

  function SchemeFilter(state: Option<string>, stage: Option<string>): Scheme -> bool {
    s => SchemeMatches(s, state, stage)
  }

  method GetSchemes(schemes: seq<Scheme>, state: Option<string>, stage: Option<string>) returns (results: seq<Scheme>)
    ensures results == Filter(schemes, SchemeFilter(state, stage))
    ensures IsSubsequence(results, schemes)
  {
    results := [];
    for i := 0 to |schemes|
      invariant results == Filter(schemes[..i], SchemeFilter(state, stage))
    {
      var scheme := schemes[i];
      var matches := true;
      if Given(state) {
        if scheme.state != "" && Lower(scheme.state) != Lower(state.value) {
          matches := false;
        }
      }
      if Given(stage) {
        var stages := scheme.eligibleStages;
        if stages != [] && !MemberIgnoringCase(stage.value, stages) {
          matches := false;
        }
      }
      FilterPrefixStep(schemes, i, SchemeFilter(state, stage));
      if matches {
        results := results + [scheme];
      }
    }
    assert schemes[..|schemes|] == schemes;
    FilterIsSubsequence(schemes, SchemeFilter(state, stage));
  }

  /** A scheme with an empty state is returned for every state filter exactly
      when it is returned without one; likewise a scheme with no eligible stages
      for the stage filter. */
  lemma UnrestrictedSchemesPassFilters(schemes: seq<Scheme>, scheme: Scheme, state: Option<string>, stage: Option<string>)
    requires scheme in schemes
    ensures scheme.state == "" ==>
      (scheme in Filter(schemes, SchemeFilter(state, stage)) <==> scheme in Filter(schemes, SchemeFilter(None, stage)))
    ensures scheme.eligibleStages == [] ==>
      (scheme in Filter(schemes, SchemeFilter(state, stage)) <==> scheme in Filter(schemes, SchemeFilter(state, None)))
  {
  }

  /** Supplying one more filter keeps an order-preserving part of the result. */
  lemma SchemeFiltersOnlyShrink(schemes: seq<Scheme>, state: Option<string>, stage: Option<string>)
    ensures IsSubsequence(Filter(schemes, SchemeFilter(state, stage)), Filter(schemes, SchemeFilter(None, stage)))
    ensures IsSubsequence(Filter(schemes, SchemeFilter(state, stage)), Filter(schemes, SchemeFilter(state, None)))
  {
    FilterStronger(schemes, SchemeFilter(None, stage), SchemeFilter(state, stage));
    FilterStronger(schemes, SchemeFilter(state, None), SchemeFilter(state, stage));
  }

  // ----- get_opportunities -----

  /** An opportunity without listed eligible sectors passes any sector filter;
      the type filter is equality ignoring case. */
  predicate OpportunityMatches(opp: Opportunity, sector: Option<string>, oppType: Option<string>) {
    && (Given(sector) && opp.eligibleSectors != [] ==> MemberIgnoringCase(sector.value, opp.eligibleSectors))
    && (Given(oppType) ==> Lower(opp.kind) == Lower(oppType.value))
  }

  function OpportunityFilter(sector: Option<string>, oppType: Option<string>): Opportunity -> bool {
    o => OpportunityMatches(o, sector, oppType)
  }

  method GetOpportunities(opportunities: seq<Opportunity>, sector: Option<string>, oppType: Option<string>)
    returns (results: seq<Opportunity>)
    ensures results == Filter(opportunities, OpportunityFilter(sector, oppType))
    ensures IsSubsequence(results, opportunities)
  {
    results := [];
    for i := 0 to |opportunities|
      invariant results == Filter(opportunities[..i], OpportunityFilter(sector, oppType))
    {
      var opp := opportunities[i];
      var matches := true;
      if Given(sector) {
        var oppSectors := opp.eligibleSectors;
        if oppSectors != [] && !MemberIgnoringCase(sector.value, oppSectors) {
          matches := false;
        }
      }
      if Given(oppType) && Lower(opp.kind) != Lower(oppType.value) {
        matches := false;
      }
      FilterPrefixStep(opportunities, i, OpportunityFilter(sector, oppType));
      if matches {
        results := results + [opp];
      }
    }
    assert opportunities[..|opportunities|] == opportunities;
    FilterIsSubsequence(opportunities, OpportunityFilter(sector, oppType));
  }

  /** An opportunity open to every sector is returned for every sector filter
      exactly when it is returned without one. */
  lemma OpenOpportunitiesPassSectorFilter(opportunities: seq<Opportunity>, opp: Opportunity, sector: Option<string>, oppType: Option<string>)
    requires opp in opportunities && opp.eligibleSectors == []
    ensures opp in Filter(opportunities, OpportunityFilter(sector, oppType)) <==> opp in Filter(opportunities, OpportunityFilter(None, oppType))
  {
  }

  /** Supplying one more filter keeps an order-preserving part of the result. */
  lemma OpportunityFiltersOnlyShrink(opportunities: seq<Opportunity>, sector: Option<string>, oppType: Option<string>)
    ensures IsSubsequence(Filter(opportunities, OpportunityFilter(sector, oppType)), Filter(opportunities, OpportunityFilter(None, oppType)))
    ensures IsSubsequence(Filter(opportunities, OpportunityFilter(sector, oppType)), Filter(opportunities, OpportunityFilter(sector, None)))
  {
    FilterStronger(opportunities, OpportunityFilter(None, oppType), OpportunityFilter(sector, oppType));
    FilterStronger(opportunities, OpportunityFilter(sector, None), OpportunityFilter(sector, oppType));
  }

  // ----- get_funding_route -----

  function RouteKey(stage: string): string {
    Lower(stage) + "_stage"
  }

  /** The route stored under `<stage lower-cased>_stage`, else the `idea_stage`
      route, else nothing. */
  function GetFundingRoute(routes: map<string, seq<RouteStep>>, stage: string): (r: seq<RouteStep>)
    ensures RouteKey(stage) in routes ==> r == routes[RouteKey(stage)]
    ensures RouteKey(stage) !in routes && "idea_stage" in routes ==> r == routes["idea_stage"]
    ensures RouteKey(stage) !in routes && "idea_stage" !in routes ==> r == []
    ensures r == [] || r in routes.Values
  {
    var key := RouteKey(stage);
    if key in routes then routes[key]
    else if "idea_stage" in routes then routes["idea_stage"]
    else []
  }

  /** The stage is looked up without regard to letter case. */
  lemma FundingRouteIgnoresCase(routes: map<string, seq<RouteStep>>, a: string, b: string)
    requires Lower(a) == Lower(b)
    ensures GetFundingRoute(routes, a) == GetFundingRoute(routes, b)
  {
  }

  // ----- search_all -----

  /** `[Source: <source>]`, with the caller's default for a record without one. */
  function Citation(source: Option<string>, fallback: string): string {
    "[Source: " + source.GetOr(fallback) + "]"
  }

  /** One citation per record, in order. */
  function Citations<T>(xs: seq<T>, source: T -> Option<string>, fallback: string): (r: seq<string>)
    ensures |r| == |xs|
    ensures forall k | 0 <= k < |xs| :: r[k] == Citation(source(xs[k]), fallback)
  {
    if xs == [] then []
    else Citations(xs[..|xs| - 1], source, fallback) + [Citation(source(xs[|xs| - 1]), fallback)]
  }

  lemma CitationsSnoc<T>(xs: seq<T>, x: T, source: T -> Option<string>, fallback: string)
    ensures Citations(xs + [x], source, fallback) == Citations(xs, source, fallback) + [Citation(source(x), fallback)]
  {
    assert (xs + [x])[..|xs|] == xs;
  }

  function InvestorSource(inv: Investor): Option<string> { inv.source }
  function SchemeSource(scheme: Scheme): Option<string> { scheme.source }
  function OpportunitySource(opp: Opportunity): Option<string> { opp.source }

  function InvestorSearchText(inv: Investor): string {
    Lower(inv.name + " " + inv.location + " " + inv.state + " " + Join(" ", inv.sectors) + " " + inv.investmentThesis)
  }

  function SchemeSearchText(scheme: Scheme): string {
    Lower(scheme.name + " " + scheme.state + " " + scheme.department)
  }

  function OpportunitySearchText(opp: Opportunity): string {
    Lower(opp.name + " " + opp.organizer + " " + opp.kind)
  }

  /** The record's searchable text contains the (lower-cased) query `q`. */
  predicate InvestorFound(inv: Investor, q: string) { Contains(InvestorSearchText(inv), q) }
  predicate SchemeFound(scheme: Scheme, q: string) { Contains(SchemeSearchText(scheme), q) }
  predicate OpportunityFound(opp: Opportunity, q: string) { Contains(OpportunitySearchText(opp), q) }

  function InvestorHit(q: string): Investor -> bool { inv => InvestorFound(inv, q) }
  function SchemeHit(q: string): Scheme -> bool { s => SchemeFound(s, q) }
  function OpportunityHit(q: string): Opportunity -> bool { o => OpportunityFound(o, q) }

  datatype SearchResults = SearchResults(
    investors: seq<Investor>,
    schemes: seq<Scheme>,
    opportunities: seq<Opportunity>,
    sources: seq<string>)

  /** The investor half of `search_all`: matches in order, one citation each. */
  method SearchInvestors(investors: seq<Investor>, q: string) returns (hits: seq<Investor>, sources: seq<string>)
    ensures hits == Filter(investors, InvestorHit(q))
    ensures sources == Citations(hits, InvestorSource, "Database")
  {
    hits, sources := [], [];
    for i := 0 to |investors|
      invariant hits == Filter(investors[..i], InvestorHit(q))
      invariant sources == Citations(hits, InvestorSource, "Database")
    {
      var inv := investors[i];
      FilterPrefixStep(investors, i, InvestorHit(q));
      if InvestorFound(inv, q) {
        CitationsSnoc(hits, inv, InvestorSource, "Database");
        hits := hits + [inv];
        sources := sources + [Citation(inv.source, "Database")];
      }
    }
    assert investors[..|investors|] == investors;
  }

  method SearchSchemes(schemes: seq<Scheme>, q: string) returns (hits: seq<Scheme>, sources: seq<string>)
    ensures hits == Filter(schemes, SchemeHit(q))
    ensures sources == Citations(hits, SchemeSource, "Policy Document")
  {
    hits, sources := [], [];
    for i := 0 to |schemes|
      invariant hits == Filter(schemes[..i], SchemeHit(q))
      invariant sources == Citations(hits, SchemeSource, "Policy Document")
    {
      var scheme := schemes[i];
      FilterPrefixStep(schemes, i, SchemeHit(q));
      if SchemeFound(scheme, q) {
        CitationsSnoc(hits, scheme, SchemeSource, "Policy Document");
        hits := hits + [scheme];
        sources := sources + [Citation(scheme.source, "Policy Document")];
      }
    }
    assert schemes[..|schemes|] == schemes;
  }

  method SearchOpportunities(opportunities: seq<Opportunity>, q: string) returns (hits: seq<Opportunity>, sources: seq<string>)
    ensures hits == Filter(opportunities, OpportunityHit(q))
    ensures sources == Citations(hits, OpportunitySource, "Events Calendar")
  {
    hits, sources := [], [];
    for i := 0 to |opportunities|
      invariant hits == Filter(opportunities[..i], OpportunityHit(q))
      invariant sources == Citations(hits, OpportunitySource, "Events Calendar")
    {
      var opp := opportunities[i];
      FilterPrefixStep(opportunities, i, OpportunityHit(q));
      if OpportunityFound(opp, q) {
        CitationsSnoc(hits, opp, OpportunitySource, "Events Calendar");
        hits := hits + [opp];
        sources := sources + [Citation(opp.source, "Events Calendar")];
      }
    }
    assert opportunities[..|opportunities|] == opportunities;
  }

  /** Full-text search over the three record kinds; `sources` holds one
      citation per match, investors first, then schemes, then opportunities. */
  method SearchAll(seed: SeedData, query: string) returns (r: SearchResults)
    ensures r.investors == Filter(seed.investors, InvestorHit(Lower(query)))
    ensures r.schemes == Filter(seed.schemes, SchemeHit(Lower(query)))
    ensures r.opportunities == Filter(seed.opportunities, OpportunityHit(Lower(query)))
    ensures r.sources == SearchSources(r)
  {
    var q := Lower(query);
    var investors, investorSources := SearchInvestors(seed.investors, q);
    var schemes, schemeSources := SearchSchemes(seed.schemes, q);
    var opportunities, opportunitySources := SearchOpportunities(seed.opportunities, q);
    r := SearchResults(investors, schemes, opportunities, investorSources + schemeSources + opportunitySources);
  }

  /** The citations of a search: investors first, then schemes, then opportunities. */
  function SearchSources(r: SearchResults): seq<string> {
    Citations(r.investors, InvestorSource, "Database")
      + Citations(r.schemes, SchemeSource, "Policy Document")
      + Citations(r.opportunities, OpportunitySource, "Events Calendar")
  }

  /** Citation `i` of each block of a search's sources belongs to hit `i` of that block. */
  lemma SearchSourcesLayout(r: SearchResults)
    requires r.sources == SearchSources(r)
    ensures |r.sources| == |r.investors| + |r.schemes| + |r.opportunities|
    ensures forall i | 0 <= i < |r.investors| :: r.sources[i] == Citation(r.investors[i].source, "Database")
    ensures forall i | 0 <= i < |r.schemes| ::
      r.sources[|r.investors| + i] == Citation(r.schemes[i].source, "Policy Document")
    ensures forall i | 0 <= i < |r.opportunities| ::
      r.sources[|r.investors| + |r.schemes| + i] == Citation(r.opportunities[i].source, "Events Calendar")
  {
    var a := Citations(r.investors, InvestorSource, "Database");
    var b := Citations(r.schemes, SchemeSource, "Policy Document");
    var c := Citations(r.opportunities, OpportunitySource, "Events Calendar");
    forall i | 0 <= i < |r.investors|
      ensures r.sources[i] == Citation(r.investors[i].source, "Database")
    {
      assert r.sources[i] == a[i];
    }
    forall i | 0 <= i < |r.schemes|
      ensures r.sources[|r.investors| + i] == Citation(r.schemes[i].source, "Policy Document")
    {
      assert r.sources[|r.investors| + i] == b[i];
    }
    forall i | 0 <= i < |r.opportunities|
      ensures r.sources[|r.investors| + |r.schemes| + i] == Citation(r.opportunities[i].source, "Events Calendar")
    {
      assert r.sources[|r.investors| + |r.schemes| + i] == c[i];
    }
  }
}
