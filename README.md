# Catalyst funding core in Dafny

This project models the core of the Catalyst backend and proves properties of the model. Catalyst helps Indian startup founders find funding. The core has four parts:

- **Seed-data queries** (`backend/data_loader.py`, module `DataLoader`). These filter investors, government schemes and opportunities. Each filter is an optional sector, state, stage or type, matched ignoring case. They also look up a funding route by stage, and run the full-text search with its `[Source: …]` citations.
- **The knowledge graph** (`backend/services/knowledge_graph.py`, module `Graph`). A `KnowledgeGraph` object is built from the seed data, and its `entities` dictionary and `relationships` list grow as it is built:
  - region, state, city, sector, stage, investor, scheme and opportunity entities;
  - `LOCATED_IN`, `OPERATES_IN`, `INVESTS_IN`, `TARGETS_STAGE` and `OFFERS_SCHEME` edges. An investor's or scheme's edges are added only when the target entity exists.

  Its queries are:
  - lookups by type and name;
  - incoming and outgoing edges;
  - the upward walk through the location hierarchy;
  - investors by location (including parent locations) and by sector;
  - schemes of a state (plus every central-government scheme);
  - the keyword query executor;
  - graph statistics.
- **The assistant** (`backend/services/langchain_service.py`, module `Assistant`). It does three things:
  - Builds the retrieval context for a chat question. With a graph, it routes by keyword to the investor, scheme, opportunity or DPIIT branch, then falls back to the query executor. Without a graph, it falls back to the seed-data keyword path.
  - Assembles the chat answer with its citations.
  - Computes the dashboard: funding probability, matching investors, applicable schemes, active opportunities and recommended actions.
- **The funding route** (`backend/services/route_generator.py`, module `RouteGenerator`). This is the chain of nodes from `start` through DPIIT recognition, a state scheme, a central scheme, an investor and an opportunity to `success`. Each of these steps appears only when it applies, and each node is linked to the next.

Python dictionaries yield their values in insertion order. The model keeps that order as the `order` sequence beside the `entities` map. Where the code iterates a Python `set`, the order is unspecified. The model then fixes one order (first occurrence, or the order of the location results), and the contracts promise only membership, absence of repetitions and counts.

Supporting modules:
- `Wrappers`: `Option`.
- `Seqs`: `Filter`, `Take`, `Dedup` and subsequences, with their lemmas.
- `Text`: ASCII lower-casing, Python's substring `in`, character replacement, `join` and decimal rendering.

The model follows the code:
- The funding score is the additive 50/15/20/10/5 score, capped at 95.
- The graph store accepts every edge it is given.
- Retrieval is keyword routing plus the graph queries listed above.

## Model

| member | source | states |
|---|---|---|
| `DataLoader.GetInvestors` | backend/data_loader.py:28-50 | The result is exactly the investors, in seed order, that pass every filter given: the sector among the investor's sectors, an equal state, and the stage among its stages, all ignoring case. An absent or empty filter does not restrict. |
| `DataLoader.InvestorsUnfiltered` | backend/data_loader.py:28-50 | With no filter given, every investor is returned unchanged. |
| `DataLoader.InvestorFiltersOnlyShrink` | backend/data_loader.py:40-45 | Dropping any one of the three investor filters gives a result that contains the filtered one as a subsequence. |
| `DataLoader.GetSchemes` | backend/data_loader.py:52-75 | The result is exactly the schemes, in order, whose state (when set) equals the state filter and whose non-empty stage list contains the stage filter, all ignoring case. |
| `DataLoader.UnrestrictedSchemesPassFilters` | backend/data_loader.py:61-70 | A scheme without a state is never excluded by the state filter. A scheme without a stage list is never excluded by the stage filter. |
| `DataLoader.SchemeFiltersOnlyShrink` | backend/data_loader.py:61-70 | Dropping the state or the stage filter only adds schemes, keeping the filtered result as a subsequence. |
| `DataLoader.GetOpportunities` | backend/data_loader.py:77-97 | The result is exactly the opportunities, in order, whose non-empty sector list contains the sector filter and whose type equals the type filter, ignoring case. |
| `DataLoader.OpenOpportunitiesPassSectorFilter` | backend/data_loader.py:86-89 | An opportunity with no sector restriction passes the sector filter exactly when it would pass without it. |
| `DataLoader.OpportunityFiltersOnlyShrink` | backend/data_loader.py:86-92 | Dropping the sector or the type filter keeps the filtered result as a subsequence. |
| `DataLoader.GetFundingRoute` | backend/data_loader.py:99-105 | The route stored under `<stage lower-cased>_stage`. Failing that, the `idea_stage` route. Failing both, the empty route. The result is always empty or a stored route. |
| `DataLoader.FundingRouteIgnoresCase` | backend/data_loader.py:104-105 | Two stage names that agree ignoring case get the same route. |
| `DataLoader.SearchInvestors` | backend/data_loader.py:133-138 | The hits are exactly the investors whose lower-cased name, location, state, sectors and thesis contain the query, in order. There is one `[Source: …]` citation per hit, defaulting to `Database`. |
| `DataLoader.SearchSchemes` | backend/data_loader.py:140-145 | The hits are the schemes whose name, state and department contain the query. There is one citation per hit, defaulting to `Policy Document`. |
| `DataLoader.SearchOpportunities` | backend/data_loader.py:147-152 | The hits are the opportunities whose name, organizer and type contain the query. There is one citation per hit, defaulting to `Events Calendar`. |
| `DataLoader.SearchAll` | backend/data_loader.py:118-154 | The three result lists are the three searches on the lower-cased query. The sources are their citations: investors first, then schemes, then opportunities. |
| `DataLoader.SearchSourcesLayout` | backend/data_loader.py:126-152 | The number of citations equals the number of hits. Citation `i` belongs to investor `i`. The scheme citations follow the investor citations, and the opportunity citations follow those. |
| `Graph.GuardedEdges` | backend/services/knowledge_graph.py:182-200 | The guarded edges of one source are exactly the edges of the given kind to those targets that are already entities. |
| `Graph.EntityTypeCountsAddUp` | backend/services/knowledge_graph.py:491-494 | The per-type entity counts sum to the number of entities. |
| `Graph.RelationTypeCountsAddUp` | backend/services/knowledge_graph.py:496-499 | The per-type relationship counts sum to the number of relationships. |
| `Graph.PushUnvisited` | backend/services/knowledge_graph.py:319-321 | The stack grows by exactly the unvisited targets, in order. |
| `Graph.FindFirstEdgeInto` | backend/services/knowledge_graph.py:349-354 | Finds the first edge whose target is in the id set. There is none exactly when no edge reaches the set. |
| `Graph.FirstOutgoingInto` | backend/services/knowledge_graph.py:349-354 | An entity's first outgoing edge of a kind into a set exists exactly when some edge of that kind leads from it into the set. |
| `Graph.OfferedByMeaning` | backend/services/knowledge_graph.py:380-386 | The schemes collected from the named states are exactly the entities targeted by an `OFFERS_SCHEME` edge of a matching state entity. |
| `Graph.KnowledgeGraph.constructor` | backend/services/knowledge_graph.py:61-64 | A new graph is well formed and every edge leaves an entity. Its entity ids are exactly those the seed data defines. Each entity sits under an id of its own family, and the key of every seed record (region, state, city, sector, stage, investor, scheme, opportunity) holds an entity of that record's kind. |
| `Graph.RegionId` | backend/services/knowledge_graph.py:75 | A region id carries the `region_` prefix, so it reads back as a region id and never equals an id of another family. |
| `Graph.StateId` | backend/services/knowledge_graph.py:83 | A state id carries the `state_` prefix and reads back as a state id. |
| `Graph.CityId` | backend/services/knowledge_graph.py:106 | A city id carries the `city_` prefix and reads back as a city id. |
| `Graph.SectorId` | backend/services/knowledge_graph.py:127 | A sector id carries the `sector_` prefix and reads back as a sector id. |
| `Graph.StageId` | backend/services/knowledge_graph.py:137 | A stage id carries the `stage_` prefix and reads back as a stage id. |
| `Graph.InvestorId` | backend/services/knowledge_graph.py:145 | An investor id carries the `investor_` prefix and reads back as an investor id. |
| `Graph.SchemeId` | backend/services/knowledge_graph.py:204 | A scheme id carries the `scheme_` prefix and reads back as a scheme id. |
| `Graph.OpportunityId` | backend/services/knowledge_graph.py:233 | An opportunity id carries the `opportunity_` prefix and reads back as an opportunity id. |
| `Graph.KnowledgeGraph.GetEntity` | backend/services/knowledge_graph.py:258-260 | Returns an entity exactly for a known id, and that entity carries the id. |
| `Graph.KnowledgeGraph.AddEntity` | backend/services/knowledge_graph.py:250-252 | Assigns `entities[id]`. A new id goes to the end of the insertion order and a known id keeps its place. Edges are unchanged. An entity whose id is of its own family keeps every entity under an id of its kind. |
| `Graph.KnowledgeGraph.AddRelationship` | backend/services/knowledge_graph.py:254-256 | Appends the edge and nothing else. Well-formedness is kept, and so is anchoring when the edge leaves an entity. |
| `Graph.KnowledgeGraph.AddGuardedEdges` | backend/services/knowledge_graph.py:160-200 | Appends exactly the guarded edges to the targets that exist. |
| `Graph.KnowledgeGraph.AddRegions` | backend/services/knowledge_graph.py:71-79 | Adds the five region ids and no edges. |
| `Graph.KnowledgeGraph.AddState` | backend/services/knowledge_graph.py:82-119 | Adds the state id and its city ids. Appends the state→region edge when a region is named, then one city→state edge per city. |
| `Graph.KnowledgeGraph.AddCities` | backend/services/knowledge_graph.py:104-119 | Adds one id and one `LOCATED_IN` edge per city, in order. |
| `Graph.KnowledgeGraph.AddCity` | backend/services/knowledge_graph.py:105-119 | Adds the city entity and its edge to the state. |
| `Graph.KnowledgeGraph.AddSectors` | backend/services/knowledge_graph.py:121-131 | Adds exactly the sector ids of all investors' sectors. |
| `Graph.KnowledgeGraph.AddStages` | backend/services/knowledge_graph.py:133-141 | Adds exactly the eight stage ids. |
| `Graph.KnowledgeGraph.AddInvestor` | backend/services/knowledge_graph.py:144-200 | Stores the investor entity and appends exactly these guarded edges: `OPERATES_IN` to its city and state, `INVESTS_IN` to its sectors, and `TARGETS_STAGE` to its stages. |
| `Graph.KnowledgeGraph.AddScheme` | backend/services/knowledge_graph.py:203-229 | Stores the scheme and appends the state→scheme `OFFERS_SCHEME` edge exactly when its state is an entity. |
| `Graph.KnowledgeGraph.AddOpportunity` | backend/services/knowledge_graph.py:232-248 | Stores the opportunity without edges. |
| `Graph.KnowledgeGraph.AddStates` | backend/services/knowledge_graph.py:82-119 | Adds exactly the state and city ids of all states. |
| `Graph.KnowledgeGraph.AddInvestors` | backend/services/knowledge_graph.py:143-200 | Adds exactly the investor ids. |
| `Graph.KnowledgeGraph.AddSchemes` | backend/services/knowledge_graph.py:202-229 | Adds exactly the scheme ids. |
| `Graph.KnowledgeGraph.AddOpportunities` | backend/services/knowledge_graph.py:231-248 | Adds exactly the opportunity ids and no edges. |
| `Graph.KnowledgeGraph.BuildGraph` | backend/services/knowledge_graph.py:66-248 | The build adds exactly the seed ids and keeps every edge anchored at an entity. Afterwards the key of every seed record holds an entity of that record's kind. |
| `Graph.SeedKindsFollowIds` | backend/services/knowledge_graph.py:71-248 | A dictionary that holds every seed key, each entity under an id of its own family, stores each seed record's key as an entity of the record's kind. |
| `Graph.KnowledgeGraph.FindEntitiesByType` | backend/services/knowledge_graph.py:262-264 | Returns every entity of the type and only those, each once. |
| `Graph.KnowledgeGraph.FindEntitiesByTypeKeepsOrder` | backend/services/knowledge_graph.py:262-264 | The entities of a type come in dictionary insertion order. |
| `Graph.KnowledgeGraph.NamedEntities` | backend/services/knowledge_graph.py:266-277 | The entities whose lower-cased name contains or is contained in the query (fuzzy match), or equals it (exact match), each once. |
| `Graph.KnowledgeGraph.FindEntitiesByName` | backend/services/knowledge_graph.py:266-277 | The loop returns exactly the name matches in insertion order. |
| `Graph.KnowledgeGraph.ExactMatchesAreFuzzyMatches` | backend/services/knowledge_graph.py:271-276 | Exact matches are a subsequence of the fuzzy matches. |
| `Graph.KnowledgeGraph.GetOutgoingRelationships` | backend/services/knowledge_graph.py:279-286 | The edges leaving the entity, of the type when one is given, in order. |
| `Graph.KnowledgeGraph.GetIncomingRelationships` | backend/services/knowledge_graph.py:288-295 | The edges entering the entity, of the type when one is given, in order. |
| `Graph.KnowledgeGraph.TraverseLocationHierarchy` | backend/services/knowledge_graph.py:297-323 | Returns each entity reachable by `LOCATED_IN` paths exactly once, including the start first when it is an entity, and nothing else. The order is the order in which the stack walk meets them (`Graph.WalkOrder`): the most recently pushed id is visited first. |
| `Graph.KnowledgeGraph.VisitTop` | backend/services/knowledge_graph.py:309-321 | One visit of an unvisited top id: the id is marked, its entity is recorded when there is one, and its unvisited successors are pushed. The walk's remaining order is unchanged by the step, and the walk invariants are kept. |
| `Graph.KnowledgeGraph.HierarchyIds` | backend/services/knowledge_graph.py:341-345 | The ids reachable upward from any matched location. |
| `Graph.KnowledgeGraph.FindInvestorsInLocation` | backend/services/knowledge_graph.py:325-356 | Returns the investors, in order, with an `OPERATES_IN` edge into the hierarchy of a matching location, and every such investor. Each carries the name of its first matching target, or `Unknown`. |
| `Graph.KnowledgeGraph.LocatedInvestorsAreInvestors` | backend/services/knowledge_graph.py:347-356 | A located result holds only investor entities with such an edge, and all of them. |
| `Graph.KnowledgeGraph.LocateAll` | backend/services/knowledge_graph.py:348-354 | The loop pairs each investor with an edge into the ids with its matched location name. |
| `Graph.KnowledgeGraph.FindInvestorsInSector` | backend/services/knowledge_graph.py:358-373 | Returns the investors, in order, with an `INVESTS_IN` edge to a sector entity of matching name. |
| `Graph.KnowledgeGraph.OfferedSchemes` | backend/services/knowledge_graph.py:379-386 | The schemes offered by matching state entities, in edge order. |
| `Graph.KnowledgeGraph.FindSchemesInState` | backend/services/knowledge_graph.py:375-394 | The state's offered schemes come first. The result then holds exactly the schemes offered by a matching state or of type `Central Government`. |
| `Graph.KnowledgeGraph.AppendCentralSchemes` | backend/services/knowledge_graph.py:388-392 | Appends only central schemes, so that every central scheme is present. |
| `Graph.KnowledgeGraph.SchemesInStateMeaning` | backend/services/knowledge_graph.py:375-394 | Offered schemes plus central schemes are exactly the schemes available in the state. |
| `Graph.KnowledgeGraph.FindMentioned` | backend/services/knowledge_graph.py:413-425 | The name of the first entity of the kinds whose lower-cased name occurs in the query. None when there is no such entity. |
| `Graph.KnowledgeGraph.InvestorsInBoth` | backend/services/knowledge_graph.py:429-434 | Returns exactly the investors that are both in the location and in the sector, each once. |
| `Graph.KnowledgeGraph.InBothMeaning` | backend/services/knowledge_graph.py:429-434 | Intersecting the location and sector results by id gives exactly those investors. |
| `Graph.KnowledgeGraph.QueryInvestors` | backend/services/knowledge_graph.py:409-440 | Returns exactly the investors the query asks for: by location and sector, by one of them, or all investors when neither is named. Each investor is listed once. |
| `Graph.KnowledgeGraph.QuerySchemes` | backend/services/knowledge_graph.py:452-463 | Returns exactly the schemes of the named state, or all schemes. |
| `Graph.KnowledgeGraph.Report` | backend/services/knowledge_graph.py:442-449 | Reports every entity once, under the type name, and lists the non-empty sources. |
| `Graph.KnowledgeGraph.ExecuteCypherLikeQuery` | backend/services/knowledge_graph.py:396-487 | An investor query reports exactly the investors asked for, each once. Otherwise a scheme, grant or fund query reports exactly those schemes. Otherwise an opportunity query reports every opportunity. Otherwise nothing is reported. The sources are the distinct non-empty sources. |
| `Graph.KnowledgeGraph.EntityTypeCountIsLookupSize` | backend/services/knowledge_graph.py:262-264 | A type's count equals the number of entities its lookup returns. |
| `Graph.KnowledgeGraph.CountEntityTypes` | backend/services/knowledge_graph.py:491-494 | Present types are counted exactly, and the counts add up to the number of entities. |
| `Graph.KnowledgeGraph.CountRelationTypes` | backend/services/knowledge_graph.py:496-499 | Present relationship types are counted exactly, and the counts add up to the number of relationships. |
| `Graph.KnowledgeGraph.GetGraphStats` | backend/services/knowledge_graph.py:489-506 | Gives the totals. Every present type is counted exactly, and the per-type counts sum to the totals. |
| `Assistant.TopicsCoverGraphQuery` | backend/services/langchain_service.py:79-227 | A query the executor treats as an investor query is already an investor question. A scheme-executor query is an investor or scheme question. An opportunity-executor query always has a topic. |
| `Assistant.CitedSourcesMeaning` | backend/services/langchain_service.py:146-147 | Exactly the non-empty sources of the shown entries are cited. |
| `Assistant.CitedSourcesAppend` | backend/services/langchain_service.py:128-147 | The citations of two context pieces are the citations of each, in order. |
| `Assistant.RenderCards` | backend/services/langchain_service.py:129-147 | Shows the first five entries and cites their non-empty sources. |
| `Assistant.MentionedStateName` | backend/services/langchain_service.py:272-275 | A state named in the query, or None when the query names no state. |
| `Assistant.FindStateName` | backend/services/langchain_service.py:272-275 | The loop returns the first state named in the query. |
| `Assistant.FirstSectorOf` | backend/services/langchain_service.py:278-281 | The first of an investor's sectors named in the query. |
| `Assistant.LastSectorMentionMeaning` | backend/services/langchain_service.py:277-281 | The sector hint comes from the last investor with a sector named in the query, and no later investor has one. With no such investor it is None. |
| `Assistant.FindSectorName` | backend/services/langchain_service.py:277-281 | The nested loop computes that sector hint. |
| `Assistant.InvestorPartMeaning` | backend/services/langchain_service.py:268-294 | The investor section has at most five records. Each record is a seed investor matching the query's sector and state hints. The section is present exactly when an investor word occurs and some investor matches. |
| `Assistant.SchemePartMeaning` | backend/services/langchain_service.py:297-313 | The same for schemes, filtered by the query's state. |
| `Assistant.InvestorSection` | backend/services/langchain_service.py:268-294 | Builds that investor section and cites its non-empty sources. |
| `Assistant.SchemeSection` | backend/services/langchain_service.py:297-313 | Builds that scheme section and cites its non-empty sources. |
| `Assistant.BuildContextFromData` | backend/services/langchain_service.py:257-315 | The investor section, then the scheme section, with their sources cited once each, marked as keyword retrieval. |
| `Assistant.InvestorMatches` | backend/services/langchain_service.py:82-125 | Hints are the first city, state or region named and the first sector named. The items answer the query, and their number is the number of matching investors when a hint is given. No investor appears twice. Without a hint there are none. |
| `Assistant.BothLocatedAndInSector` | backend/services/langchain_service.py:100-112 | Located investors whose id is in the sector result are exactly the matching investors, each once. Each keeps its matched location. |
| `Assistant.OnlyLocated` | backend/services/langchain_service.py:114-119 | With only a location, the located investors are exactly the answers, each once. |
| `Assistant.OnlyInSector` | backend/services/langchain_service.py:121-125 | With only a sector, the sector's investors are exactly the answers, each once. |
| `Assistant.ShowSection` | backend/services/langchain_service.py:184-200 | The headings, then the count line and the first five cards when there are any. The number found is the full count, and the non-empty sources are cited. |
| `Assistant.InvestorHeads` | backend/services/langchain_service.py:110-125 | There are headings exactly when a hint is given. The inference note appears exactly when a location is. |
| `Assistant.InvestorCardSection` | backend/services/langchain_service.py:127-149 | The up to five investor cards of the items, with their count and sources. |
| `Assistant.InvestorContext` | backend/services/langchain_service.py:79-149 | The investor branch is empty exactly without hints. Every card answers the query, no two cards show the same investor, the count found is the number of matching investors, and at most five cards are shown. |
| `Assistant.FindFirstOfType` | backend/services/langchain_service.py:170-174 | The first entity of the type in the hierarchy. None when there is none. |
| `Assistant.InferState` | backend/services/langchain_service.py:163-175 | The state inferred from the first city named: the first state in that city's location hierarchy, in walk order, which is a state above the city. None when no named city lies under a state. |
| `Assistant.SchemeState` | backend/services/langchain_service.py:155-175 | A state named in the query wins. Otherwise the first state met walking up from the first named city is inferred; with neither, there is no state. |
| `Assistant.SchemeContext` | backend/services/langchain_service.py:152-200 | The scheme branch settles on a state: the one the query names, or else the first state met above the first named city, with the inference note. Its ghost `schemes` are exactly the schemes available in that state, or every scheme of the graph in insertion order when there is no state. `found` is their number, and the parts are exactly `SchemeParts`: the headings, then, when there are schemes, the count line and the cards of the first five. So when some scheme is available, at least one card is shown. |
| `Assistant.SchemeLookup` | backend/services/langchain_service.py:177-200 | For the settled state, its ghost `schemes` are exactly the available schemes, or every scheme without a state. `found` is their number, and the parts are exactly `SchemeParts` of them. |
| `Assistant.SchemesFor` | backend/services/langchain_service.py:177-182 | With a state, exactly the schemes available in it (those it is offered in, and every central scheme). Without one, every scheme of the graph. |
| `Assistant.SchemeCardSection` | backend/services/langchain_service.py:179-200 | The parts are exactly `SchemeParts`: the headings, then, when there are schemes, the count line and the cards of the first five. `found` is the number of schemes, and the sources are those the shown cards cite. |
| `Assistant.OpportunityContext` | backend/services/langchain_service.py:203-224 | The parts are exactly the heading, then, when the graph has opportunities, the count line and the cards of the first five in insertion order. `found` is the number of all the opportunities. |
| `Assistant.OpportunityCardSection` | backend/services/langchain_service.py:207-222 | The heading, then, when there are opportunities, the count line and the cards of the first five. `found` is their number, and the sources are those the shown cards cite. |
| `Assistant.DpiitContext` | backend/services/langchain_service.py:227-242 | The DPIIT heading and card, citing the Startup India policy once, with one entity found. |
| `Assistant.TopicContext` | backend/services/langchain_service.py:78-242 | Dispatches to the branch of the first keyword list the query hits. |
| `Assistant.SearchHits` | backend/services/langchain_service.py:246-251 | The executor's hits and its distinct non-empty sources. For an investor query, every hit answers it. |
| `Assistant.SearchPartsMeaning` | backend/services/langchain_service.py:247-252 | The search section is empty exactly without hits. It shows at most five of them, and every source it shows is cited. |
| `Assistant.SearchContext` | backend/services/langchain_service.py:244-253 | The search fallback shows only search lines, cites each source once, and is empty when the query matches no executor pattern. |
| `Assistant.KeywordOrSearch` | backend/services/langchain_service.py:78-253 | A topic branch that produced content is kept. Otherwise the search fallback is used, and it can contribute only for investor questions. On the fallback the branch is empty exactly when the search found nothing. |
| `Assistant.GraphContext` | backend/services/langchain_service.py:73-254 | Graph retrieval: the sources are distinct, non-empty and cover what is shown. The branch content matches the topic, at most five cards are shown, and the investor count is exact. On the search fallback the context is empty exactly when nothing was found. |
| `Assistant.BuildContextFromKnowledgeGraph` | backend/services/langchain_service.py:58-254 | Without a graph, the seed-data context. With one, the graph context; on its search fallback that context holds only search parts and is empty exactly when nothing was found. Sources are always distinct and cover every shown source. |
| `Assistant.Respond` | backend/services/langchain_service.py:333-397 | The context is used exactly when it is non-empty. A model reply is returned as is, with at most three sources appended when the reply lacks `[Source:`. Without a reply, the context is returned with its first three sources. An empty context gives the no-match answer. |
| `Assistant.FailingModelIsNoModel` | backend/services/langchain_service.py:335-375 | A failing model call falls back exactly like a missing model. |
| `Assistant.ChatWithCitations` | backend/services/langchain_service.py:318-397 | The reply is `Respond` applied to the context built for the query. The context is used exactly when it is non-empty. A model reply is passed through, and without one the answer is the direct lookup. Without a graph the context is the seed-data investor and scheme parts. On the graph's search fallback, the context is used exactly when the search found entities. Sources are distinct and non-empty, and the answer cites at most three of them. The statistics name graph or keyword retrieval by whether a graph exists. A graph branch always uses the context. The investor count is exact. |
| `Assistant.FundingScore` | backend/services/langchain_service.py:406-416 | The score lies between 50 and 100, and is exactly 50 when the profile earns no bonus. |
| `Assistant.FundingProbability` | backend/services/langchain_service.py:479 | The probability is the score capped at 95. |
| `Assistant.RegistrationGain` | backend/services/langchain_service.py:409-410 | Registering with DPIIT adds 15 to the score, and to the probability up to the cap. |
| `Assistant.ProbabilityMonotone` | backend/services/langchain_service.py:406-416 | A profile earning every bonus another earns scores at least as high. |
| `Assistant.ActionSteps` | backend/services/langchain_service.py:447-476 | One action per condition that holds. |
| `Assistant.RecommendedRegistrationAndPitch` | backend/services/langchain_service.py:449-462 | Registering is recommended exactly when the user is unregistered. Pitching is recommended exactly to the first matching investor. |
| `Assistant.RecommendedApplicationAndParticipation` | backend/services/langchain_service.py:464-476 | Applying is recommended exactly for the first applicable scheme, with its funding amount. Participating is recommended exactly in the first opportunity, with its prize. |
| `Assistant.RecommendedActionsOrder` | backend/services/langchain_service.py:447-483 | The actions appear in the order register, pitch, apply, participate, one per condition, so there are at most four. |
| `Assistant.Recommend` | backend/services/langchain_service.py:447-476 | The steps build exactly those actions. |
| `Assistant.ScoreProfile` | backend/services/langchain_service.py:406-416 | The step-by-step score gives the funding probability. |
| `Assistant.GraphMatches` | backend/services/langchain_service.py:418-431 | One name per investor both in the profile's location and in its sector, and only such names. |
| `Assistant.GetDashboardInsights` | backend/services/langchain_service.py:400-486 | Probability, scheme and opportunity counts come from the profile's filters. Matching investors come from the graph or, without one, from the seed filters. The actions are the recommended ones. The profile and graph flag are returned. |
| `RouteGenerator.ResolvedState` | backend/services/route_generator.py:25-30 | The first state whose cities (ignoring case), or whose own name, the location names. None when there is none. |
| `RouteGenerator.ResolveState` | backend/services/route_generator.py:25-30 | The loop finds that state. |
| `RouteGenerator.StepsForChoice` | backend/services/route_generator.py:49-158 | The DPIIT step appears exactly at an early stage, and each other step exactly for the first candidate of its list. |
| `RouteGenerator.RouteStepsChoice` | backend/services/route_generator.py:49-158 | The same for the route's candidate lists: state schemes for the resolved state and stage, central schemes, local investors (falling back to sector investors), and sector opportunities. |
| `RouteGenerator.RouteStepsMeaning` | backend/services/route_generator.py:69-158 | Every chosen scheme, investor and opportunity is a seed record passing that step's filters. A local investor is chosen whenever one exists. |
| `RouteGenerator.StepsForOrder` | backend/services/route_generator.py:49-158 | The steps come in the fixed order DPIIT, state scheme, central scheme, investor, opportunity, with at most five. |
| `RouteGenerator.RouteStepsOrder` | backend/services/route_generator.py:49-158 | The route's steps are in that order, with at most five. |
| `RouteGenerator.AddStep` | backend/services/route_generator.py:49-67 | Appends the next `step_<n>` node at `x = 250·n` and links it from the previous node. |
| `RouteGenerator.AddSuccess` | backend/services/route_generator.py:160-176 | Closes the chain with the `success` node and its edge. |
| `RouteGenerator.RouteLookups` | backend/services/route_generator.py:69-139 | The four candidate lists are the seed queries the route uses. |
| `RouteGenerator.BuildChain` | backend/services/route_generator.py:37-176 | Builds the chain from `start` through the chosen steps to `success`. |
| `RouteGenerator.GenerateFundingRoute` | backend/services/route_generator.py:8-211 | The nodes and edges form the route of the chosen steps. The summary is a non-empty model reply or the generated sentence. The route is marked AI-powered exactly when the model replied. |
| `RouteGenerator.StepIdInjective` | backend/services/route_generator.py:53 | Distinct step numbers give distinct node ids. |
| `RouteGenerator.RouteIdsDistinct` | backend/services/route_generator.py:37-176 | No two nodes of a route share an id. |
| `RouteGenerator.RouteShape` | backend/services/route_generator.py:33-176 | A route has 2 to 7 nodes, from `start` to `success`. Node `i` sits at `x = 250·i`, and inner nodes are `step_1`…. |
| `RouteGenerator.RouteIsPath` | backend/services/route_generator.py:60-176 | Edge `j` leaves node `j` and enters node `j+1` and no other node, so the edges form one simple path. |

## Left out

- Loading the seed JSON file, the cached `get_data()`, the graph singleton `get_knowledge_graph()` and `get_kg()` are not modelled. The seed data is a parameter, and a graph that is missing or failed to build is a `null` graph.
- `get_user_profile`, `get_location_info` and `get_llm` only read configuration. The model represents the language model as a parameter (`LlmOutcome`): none configured, failing, or replying with a given text.
- The prompts sent to the model and the model's text generation are not modelled.
- Entity properties are reduced to the type label and the source. Those are the only properties that decide anything. Ticket sizes, theses, e-mails, eligibility maps and the like are only rendered.
- Rendered text is not modelled: markdown, emoji, the `[:150]`-style label truncations, React Flow styles and the different colour of the final route edge. Context entries are structured values instead.
- Lower-casing is ASCII-only. Python's Unicode case mapping is not modelled.
- `Graph.KnowledgeGraph.BuildGraph`: `LOCATED_IN` edges to a region or state that is not an entity are added, as in the code. The model therefore promises only that every edge leaves an entity and that non-`LOCATED_IN` edges also end at one.
- `Graph.KnowledgeGraph.constructor`: the graph promises the kind of the entity under every seed key, not the whole record. When two seed records share a key (two investors with one id, a city listed under two states), the code keeps the last one, and the model does not state which record won. The exact edge list is not stated for the whole build. It is stated one record at a time, by `AddState`, `AddInvestor` and `AddScheme`.
- `Graph.KnowledgeGraph.AddStates`, `Graph.KnowledgeGraph.AddInvestors`, `Graph.KnowledgeGraph.AddSchemes`: these promise the exact new key set but only that the old edges are a prefix of the new ones. The exact edges are stated one record at a time, by `AddState`, `AddInvestor` and `AddScheme`.
- `Graph.KnowledgeGraph.ExecuteCypherLikeQuery`: `list(set(...))` has an unspecified order, so the model promises only distinct sources. Likewise, a location-and-sector query lists investors in the order of the location result. The contract speaks of membership and of each investor being listed once, not order.
- `Assistant.GetDashboardInsights`: in the graph path the list of matching investors comes from a Python set. Its order, and so which investor the pitch action names, is unspecified. The ghost `investorNames` stands for that list, and the contract states its length and membership.
- `Assistant.BuildContextFromData`: the code reads `inv['source']` and `scheme['source']`, which raises a `KeyError` when the key is missing and cites an empty string when it is empty. The model treats both as no source and cites only non-empty sources.
- `Assistant.GetDashboardInsights`: graph-path lookups treat a missing profile sector as the empty string, as `user.get("sector", "")` does. A sector stored as JSON `null` is conflated with a missing one.
- A missing profile key and a `null` value are conflated, because the model holds both as `Option`. The dashboard's `user.get("location", user.get("state", ""))` is modelled as the location when present, else the state.
- Python exceptions other than the failing model call (a missing seed key, a malformed record) are not modelled. The outcome of the `try` around the model call is a parameter.
- The route summary's model call is a parameter in the same way. Its event loop and the printing of failures are not modelled.
