/** The in-memory knowledge graph (backend/services/knowledge_graph.py): a
    dictionary of entities keyed by id and a list of typed directed edges,
    built from the seed catalogue and queried by the assistant. */
module Graph {
  import opened Wrappers
  import opened Seqs
  import opened Text
  import DataLoader

  datatype EntityType = Investor | Scheme | Opportunity | State | City | Region | Sector | Stage

  datatype RelationType = LocatedIn | InvestsIn | OperatesIn | OffersScheme | TargetsStage | AppliesTo

  /** The two properties that the graph's queries branch on: the record's
      `type` (e.g. "Central Government" for a scheme) and its `source` citation;
      "" when the record has none. The other properties are only rendered. */
  datatype Properties = Properties(typeLabel: string, source: string)

  datatype Entity = Entity(id: string, kind: EntityType, name: string, properties: Properties)

  datatype Relationship = Relationship(sourceId: string, targetId: string, relationType: RelationType)

  const CentralGovernment: string := "Central Government"

  const RegionNames: seq<string> := ["South India", "North India", "West India", "East India", "Central India"]

  const StageNames: seq<string> := ["Pre-Seed", "Seed", "Series A", "Series B", "Growth", "Idea", "MVP", "Revenue"]

  // ----- normalised ids -----

  /** Lower-cased, with each of `separators` turned into '_'. */
  function Slug(name: string, separators: set<char>): string {
    Replace(Lower(name), separators, '_')
  }

  /** The family an id belongs to, read off its prefix; the eight prefixes
      below are pairwise distinct and none extends another, so ids of
      different families never coincide. */
  function KindOfId(id: string): Option<EntityType> {
    if IsPrefix("region_", id) then Some(Region)
    else if IsPrefix("state_", id) then Some(State)
    else if IsPrefix("city_", id) then Some(City)
    else if IsPrefix("sector_", id) then Some(Sector)
    else if IsPrefix("stage_", id) then Some(Stage)
    else if IsPrefix("investor_", id) then Some(Investor)
    else if IsPrefix("scheme_", id) then Some(Scheme)
    else if IsPrefix("opportunity_", id) then Some(Opportunity)
    else None
  }

  function RegionId(name: string): (id: string)
    ensures KindOfId(id) == Some(Region)
  {
    var id := "region_" + Slug(name, {' '});
    assert id[..7] == "region_";
    id
  }

  function StateId(name: string): (id: string)
    ensures KindOfId(id) == Some(State)
  {
    var id := "state_" + Slug(name, {' '});
    assert id[..6] == "state_" && id[0] == 's';
    id
  }

  function CityId(name: string): (id: string)
    ensures KindOfId(id) == Some(City)
  {
    var id := "city_" + Slug(name, {' '});
    assert id[..5] == "city_" && id[0] == 'c';
    id
  }

  function SectorId(name: string): (id: string)
    ensures KindOfId(id) == Some(Sector)
  {
    var id := "sector_" + Slug(name, {' ', '/'});
    assert id[..7] == "sector_" && id[0] == 's' && id[1] == 'e';
    id
  }

  function StageId(name: string): (id: string)
    ensures KindOfId(id) == Some(Stage)
  {
    var id := "stage_" + Slug(name, {' ', '-'});
    assert id[..6] == "stage_" && id[0] == 's' && id[1] == 't' && id[3] == 'g';
    id
  }

  function InvestorId(raw: string): (id: string)
    ensures KindOfId(id) == Some(Investor)
  {
    var id := "investor_" + raw;
    assert id[..9] == "investor_" && id[0] == 'i';
    id
  }

  function SchemeId(raw: string): (id: string)
    ensures KindOfId(id) == Some(Scheme)
  {
    var id := "scheme_" + raw;
    assert id[..7] == "scheme_" && id[0] == 's' && id[1] == 'c';
    id
  }

  function OpportunityId(raw: string): (id: string)
    ensures KindOfId(id) == Some(Opportunity)
  {
    var id := "opportunity_" + raw;
    assert id[..12] == "opportunity_" && id[0] == 'o';
    id
  }

  /** The dictionary keys a family of seed records is stored under. */
  function KeysOf<T(==)>(xs: seq<T>, key: T -> string): set<string> { set x | x in xs :: key(x) }

  /** One more record adds its key: the step a loop that stores records makes. */
  lemma KeysOfStep<T>(xs: seq<T>, i: nat, key: T -> string)
    requires i < |xs|
    ensures KeysOf(xs[..i + 1], key) == KeysOf(xs[..i], key) + {key(xs[i])}
  {
    assert xs[..i + 1] == xs[..i] + [xs[i]];
  }

  function InvestorKey(inv: DataLoader.Investor): string { InvestorId(inv.id) }
  function SchemeKey(s: DataLoader.Scheme): string { SchemeId(s.id) }
  function OpportunityKey(o: DataLoader.Opportunity): string { OpportunityId(o.id) }

  function SectorIds(names: seq<string>): (ids: seq<string>)
    ensures |ids| == |names|
  {
    seq(|names|, i requires 0 <= i < |names| => SectorId(names[i]))
  }

  function StageIds(names: seq<string>): (ids: seq<string>)
    ensures |ids| == |names|
  {
    seq(|names|, i requires 0 <= i < |names| => StageId(names[i]))
  }

  // ----- seed records as entities -----

  const NoProperties: Properties := Properties("", "")

  function RegionEntity(name: string): Entity { Entity(RegionId(name), Region, name, NoProperties) }
  function StateEntity(name: string): Entity { Entity(StateId(name), State, name, NoProperties) }
  function CityEntity(name: string): Entity { Entity(CityId(name), City, name, NoProperties) }
  function SectorEntity(name: string): Entity { Entity(SectorId(name), Sector, name, NoProperties) }
  function StageEntity(name: string): Entity { Entity(StageId(name), Stage, name, NoProperties) }

  function InvestorEntity(inv: DataLoader.Investor): Entity {
    Entity(InvestorId(inv.id), Investor, inv.name, Properties(inv.kind, inv.source.GetOr("")))
  }

  function SchemeEntity(s: DataLoader.Scheme): Entity {
    Entity(SchemeId(s.id), Scheme, s.name, Properties(s.kind, s.source.GetOr("")))
  }

  function OpportunityEntity(o: DataLoader.Opportunity): Entity {
    Entity(OpportunityId(o.id), Opportunity, o.name, Properties(o.kind, o.source.GetOr("")))
  }

  /** The ids `_build_graph` derives from a seed catalogue. */
  function StateAndCityIds(states: seq<DataLoader.StateRecord>): set<string>
    decreases |states|
  {
    if states == [] then {}
    else
      var st := states[|states| - 1];
      StateAndCityIds(states[..|states| - 1]) + {StateId(st.name)} + KeysOf(st.cities, CityId)
  }

  function AllSectorNames(investors: seq<DataLoader.Investor>): seq<string>
    decreases |investors|
  {
    if investors == [] then []
    else AllSectorNames(investors[..|investors| - 1]) + investors[|investors| - 1].sectors
  }

  lemma {:induction false} StateAndCityIdsHold(states: seq<DataLoader.StateRecord>, st: DataLoader.StateRecord)
    requires st in states
    ensures StateId(st.name) in StateAndCityIds(states)
    ensures forall c | c in st.cities :: CityId(c) in StateAndCityIds(states)
    decreases |states|
  {
    var init := states[..|states| - 1];
    if st != states[|states| - 1] {
      var i :| 0 <= i < |states| && states[i] == st;
      assert init[i] == st;
      StateAndCityIdsHold(init, st);
    }
  }

  lemma {:induction false} AllSectorNamesHold(investors: seq<DataLoader.Investor>, inv: DataLoader.Investor, sector: string)
    requires inv in investors && sector in inv.sectors
    ensures sector in AllSectorNames(investors)
    decreases |investors|
  {
    var init := investors[..|investors| - 1];
    if inv != investors[|investors| - 1] {
      var i :| 0 <= i < |investors| && investors[i] == inv;
      assert init[i] == inv;
      AllSectorNamesHold(init, inv, sector);
    }
  }

  function SeedIds(seed: DataLoader.SeedData): set<string> {
    KeysOf(RegionNames, RegionId)
    + StateAndCityIds(seed.states)
    + KeysOf(AllSectorNames(seed.investors), SectorId)
    + KeysOf(StageNames, StageId)
    + KeysOf(seed.investors, InvestorKey)
    + KeysOf(seed.schemes, SchemeKey)
    + KeysOf(seed.opportunities, OpportunityKey)
  }

  /** What `_build_graph` leaves under the key of every seed record: an
      entity of that record's family (region, state, city, sector, stage,
      investor, scheme, opportunity). */
  ghost predicate StoresSeedKinds(entities: map<string, Entity>, seed: DataLoader.SeedData) {
    && (forall n | n in RegionNames :: RegionId(n) in entities && entities[RegionId(n)].kind == Region)
    && (forall st | st in seed.states :: StateId(st.name) in entities && entities[StateId(st.name)].kind == State)
    && (forall st, c | st in seed.states && c in st.cities :: CityId(c) in entities && entities[CityId(c)].kind == City)
    && (forall inv, sector | inv in seed.investors && sector in inv.sectors ::
          SectorId(sector) in entities && entities[SectorId(sector)].kind == Sector)
    && (forall n | n in StageNames :: StageId(n) in entities && entities[StageId(n)].kind == Stage)
    && (forall inv | inv in seed.investors :: InvestorKey(inv) in entities && entities[InvestorKey(inv)].kind == Investor)
    && (forall sc | sc in seed.schemes :: SchemeKey(sc) in entities && entities[SchemeKey(sc)].kind == Scheme)
    && (forall o | o in seed.opportunities ::
          OpportunityKey(o) in entities && entities[OpportunityKey(o)].kind == Opportunity)
  }

  /** A dictionary that holds every seed key, each under an id of its own
      family, stores each seed record as an entity of the record's kind. */
  lemma SeedKindsFollowIds(entities: map<string, Entity>, seed: DataLoader.SeedData)
    requires SeedIds(seed) <= entities.Keys
    requires forall k | k in entities :: KindOfId(k) == Some(entities[k].kind)
    ensures StoresSeedKinds(entities, seed)
  {
    forall st | st in seed.states
      ensures StateId(st.name) in entities && forall c | c in st.cities :: CityId(c) in entities
    {
      StateAndCityIdsHold(seed.states, st);
    }
    forall inv, sector | inv in seed.investors && sector in inv.sectors
      ensures SectorId(sector) in entities
    {
      AllSectorNamesHold(seed.investors, inv, sector);
    }
  }

  // ----- edges as specified by the seed -----

  /** One `kind` edge from `src` to each of `targets` that is already an
      entity id, in order: the `if target_id in self.entities` guard. */
  function GuardedEdges(src: string, targets: seq<string>, kind: RelationType, keys: set<string>): (es: seq<Relationship>)
    ensures forall r | r in es :: r.sourceId == src && r.relationType == kind && r.targetId in keys && r.targetId in targets
    ensures forall t | t in targets && t in keys :: Relationship(src, t, kind) in es
    decreases |targets|
  {
    if targets == [] then []
    else
      var t := targets[|targets| - 1];
      assert targets == targets[..|targets| - 1] + [t];
      GuardedEdges(src, targets[..|targets| - 1], kind, keys) + (if t in keys then [Relationship(src, t, kind)] else [])
  }

  lemma GuardedEdgesStep(src: string, targets: seq<string>, i: nat, kind: RelationType, keys: set<string>)
    requires i < |targets|
    ensures GuardedEdges(src, targets[..i + 1], kind, keys)
         == GuardedEdges(src, targets[..i], kind, keys) + (if targets[i] in keys then [Relationship(src, targets[i], kind)] else [])
  {
    assert targets[..i + 1][..i] == targets[..i];
  }

  function CityEdges(stateName: string, cities: seq<string>): (es: seq<Relationship>)
    ensures |es| == |cities|
  {
    seq(|cities|, i requires 0 <= i < |cities| => Relationship(CityId(cities[i]), StateId(stateName), LocatedIn))
  }

  lemma CityEdgesStep(stateName: string, cities: seq<string>, i: nat)
    requires i < |cities|
    ensures CityEdges(stateName, cities[..i + 1])
         == CityEdges(stateName, cities[..i]) + [Relationship(CityId(cities[i]), StateId(stateName), LocatedIn)]
  {
  }

  /** The edges one state record contributes: state to region (when a region is
      named), then each city to the state. */
  function StateEdges(st: DataLoader.StateRecord): seq<Relationship> {
    (if st.region != "" then [Relationship(StateId(st.name), RegionId(st.region), LocatedIn)] else [])
    + CityEdges(st.name, st.cities)
  }

  function OptionalId(name: string, id: string): seq<string> {
    if name != "" then [id] else []
  }

  /** The edges one investor contributes, given the entity ids present. */
  function InvestorEdges(inv: DataLoader.Investor, keys: set<string>): seq<Relationship> {
    var src := InvestorId(inv.id);
    GuardedEdges(src, OptionalId(inv.location, CityId(inv.location)), OperatesIn, keys)
    + GuardedEdges(src, OptionalId(inv.state, StateId(inv.state)), OperatesIn, keys)
    + GuardedEdges(src, SectorIds(inv.sectors), InvestsIn, keys)
    + GuardedEdges(src, StageIds(inv.stages), TargetsStage, keys)
  }

  function SchemeEdges(s: DataLoader.Scheme, keys: set<string>): seq<Relationship> {
    if s.state != "" && StateId(s.state) in keys then [Relationship(StateId(s.state), SchemeId(s.id), OffersScheme)] else []
  }

  // ----- dictionary values in insertion order -----

  function DictValues(order: seq<string>, m: map<string, Entity>): (vs: seq<Entity>)
    requires forall k | k in order :: k in m
    ensures |vs| == |order|
    ensures forall i | 0 <= i < |order| :: vs[i] == m[order[i]]
  {
    seq(|order|, i requires 0 <= i < |order| => m[order[i]])
  }

  predicate DistinctIds(es: seq<Entity>) {
    forall i, j | 0 <= i < j < |es| :: es[i].id != es[j].id
  }

  function IdsOf(es: seq<Entity>): set<string> {
    set e | e in es :: e.id
  }

  function HasIdIn(ids: set<string>): Entity -> bool {
    (e: Entity) => e.id in ids
  }

  lemma {:induction false} FilterKeepsDistinctIds(s: seq<Entity>, p: Entity -> bool)
    requires DistinctIds(s)
    ensures DistinctIds(Filter(s, p))
  {
    if s != [] {
      var init, x := s[..|s| - 1], s[|s| - 1];
      FilterKeepsDistinctIds(init, p);
      var rest := Filter(init, p);
      if p(x) {
        forall i | 0 <= i < |rest| ensures rest[i].id != x.id {
          assert rest[i] in init;
        }
      }
    }
  }

  lemma {:induction false} DistinctIdsCardinality(s: seq<Entity>)
    requires DistinctIds(s)
    ensures |IdsOf(s)| == |s|
  {
    if s != [] {
      var init, x := s[..|s| - 1], s[|s| - 1];
      assert DistinctIds(init);
      DistinctIdsCardinality(init);
      assert IdsOf(s) == IdsOf(init) + {x.id};
      assert x.id !in IdsOf(init);
    }
  }

  // ----- upward reachability over LOCATED_IN -----

  /** `path` follows LOCATED_IN edges from its first to its last element. */
  ghost predicate IsUpwardPath(rels: seq<Relationship>, path: seq<string>)
    decreases |path|
  {
    |path| >= 1
    && (|path| == 1 || (Relationship(path[0], path[1], LocatedIn) in rels && IsUpwardPath(rels, path[1..])))
  }

  ghost predicate Reachable(rels: seq<Relationship>, from: string, to: string) {
    exists path :: IsUpwardPath(rels, path) && path[0] == from && path[|path| - 1] == to
  }

  ghost predicate ReachableFromAny(rels: seq<Relationship>, starts: seq<Entity>, to: string) {
    exists m | m in starts :: Reachable(rels, m.id, to)
  }

  /** No LOCATED_IN edge leaves `ids`. */
  ghost predicate ClosedUpward(rels: seq<Relationship>, ids: set<string>) {
    forall r | r in rels && r.relationType == LocatedIn && r.sourceId in ids :: r.targetId in ids
  }

  lemma ReachableFromItself(rels: seq<Relationship>, a: string)
    ensures Reachable(rels, a, a)
  {
    assert IsUpwardPath(rels, [a]);
  }

  lemma {:induction false} PathExtend(rels: seq<Relationship>, path: seq<string>, b: string)
    requires IsUpwardPath(rels, path)
    requires Relationship(path[|path| - 1], b, LocatedIn) in rels
    ensures IsUpwardPath(rels, path + [b])
  {
    if |path| == 1 {
      assert (path + [b])[1..] == [b];
      assert IsUpwardPath(rels, [b]);
    } else {
      PathExtend(rels, path[1..], b);
      assert (path + [b])[1..] == path[1..] + [b];
    }
  }

  lemma ReachableStep(rels: seq<Relationship>, a: string, b: string, c: string)
    requires Reachable(rels, a, b)
    requires Relationship(b, c, LocatedIn) in rels
    ensures Reachable(rels, a, c)
  {
    var path :| IsUpwardPath(rels, path) && path[0] == a && path[|path| - 1] == b;
    PathExtend(rels, path, c);
    var longer := path + [c];
    assert longer[0] == a && longer[|longer| - 1] == c;
  }

  lemma {:induction false} PathStaysInClosedSet(rels: seq<Relationship>, ids: set<string>, path: seq<string>)
    requires IsUpwardPath(rels, path) && ClosedUpward(rels, ids) && path[0] in ids
    ensures path[|path| - 1] in ids
  {
    if |path| > 1 {
      var r := Relationship(path[0], path[1], LocatedIn);
      assert r in rels;
      PathStaysInClosedSet(rels, ids, path[1..]);
    }
  }

  /** A set that holds `from` and that no LOCATED_IN edge leaves holds
      everything reachable from `from`. */
  lemma ClosedSetHoldsReachable(rels: seq<Relationship>, ids: set<string>, from: string, to: string)
    requires from in ids && ClosedUpward(rels, ids) && Reachable(rels, from, to)
    ensures to in ids
  {
    var path :| IsUpwardPath(rels, path) && path[0] == from && path[|path| - 1] == to;
    PathStaysInClosedSet(rels, ids, path);
  }

  // ----- query vocabulary -----

  function KindOf(e: Entity): EntityType { e.kind }

  function OfType(t: EntityType): Entity -> bool { (e: Entity) => e.kind == t }

  /** `find_entities_by_name`'s test: fuzzy is substring either way after
      lower-casing, exact is equality after lower-casing. */
  predicate NameMatches(entityName: string, query: string, fuzzy: bool) {
    if fuzzy then Contains(Lower(entityName), Lower(query)) || Contains(Lower(query), Lower(entityName))
    else Lower(entityName) == Lower(query)
  }

  function NameMatcher(query: string, fuzzy: bool): Entity -> bool {
    (e: Entity) => NameMatches(e.name, query, fuzzy)
  }

  predicate Leaves(r: Relationship, id: string, t: Option<RelationType>) {
    r.sourceId == id && (t.None? || r.relationType == t.value)
  }

  predicate Enters(r: Relationship, id: string, t: Option<RelationType>) {
    r.targetId == id && (t.None? || r.relationType == t.value)
  }

  function OutgoingFrom(id: string, t: Option<RelationType>): Relationship -> bool { r => Leaves(r, id, t) }

  function IncomingTo(id: string, t: Option<RelationType>): Relationship -> bool { r => Enters(r, id, t) }

  function TargetsOf(edges: seq<Relationship>): (ts: seq<string>)
    ensures |ts| == |edges|
  {
    seq(|edges|, i requires 0 <= i < |edges| => edges[i].targetId)
  }

  function NotIn(visited: set<string>): string -> bool { x => x !in visited }

  predicate HasEdgeInto(rels: seq<Relationship>, id: string, kind: RelationType, ids: set<string>) {
    exists r | r in rels :: r.sourceId == id && r.relationType == kind && r.targetId in ids
  }

  function EdgeInto(rels: seq<Relationship>, kind: RelationType, ids: set<string>): Entity -> bool {
    (e: Entity) => HasEdgeInto(rels, e.id, kind, ids)
  }

  /** The first of `edges` that enters `ids`: the loop with `break` that
      stops at the first matching edge. */
  function FirstInto(edges: seq<Relationship>, ids: set<string>): (r: Option<Relationship>)
    ensures r.Some? ==> r.value in edges && r.value.targetId in ids
    ensures r.None? ==> forall e | e in edges :: e.targetId !in ids
    decreases |edges|
  {
    if edges == [] then None
    else if edges[0].targetId in ids then Some(edges[0])
    else FirstInto(edges[1..], ids)
  }

  /** An entity's outgoing `kind` edges reach `ids` exactly when it has a
      `kind` edge into `ids`. */
  lemma FirstOutgoingInto(rels: seq<Relationship>, id: string, kind: RelationType, ids: set<string>)
    ensures FirstInto(Filter(rels, OutgoingFrom(id, Some(kind))), ids).Some? <==> HasEdgeInto(rels, id, kind, ids)
  {
    var out := Filter(rels, OutgoingFrom(id, Some(kind)));
    if HasEdgeInto(rels, id, kind, ids) {
      var r :| r in rels && r.sourceId == id && r.relationType == kind && r.targetId in ids;
      assert OutgoingFrom(id, Some(kind))(r);
      assert r in out;
    }
    var hit := FirstInto(out, ids);
    if hit.Some? {
      assert hit.value in rels && OutgoingFrom(id, Some(kind))(hit.value);
    }
  }

  lemma NoTargetsNoEdges(es: seq<Entity>, rels: seq<Relationship>, kind: RelationType)
    ensures Filter(es, EdgeInto(rels, kind, {})) == []
  {
    FilterNone(es, EdgeInto(rels, kind, {}));
  }

  predicate IsCentralScheme(e: Entity) {
    e.kind == Scheme && e.properties.typeLabel == CentralGovernment
  }

  const LocationKinds: set<EntityType> := {City, State, Region}

  predicate AsksForInvestors(q: string) { Contains(q, "investor") }

  predicate AsksForSchemes(q: string) { Contains(q, "scheme") || Contains(q, "grant") || Contains(q, "fund") }

  predicate AsksForOpportunities(q: string) {
    Contains(q, "opportunity") || Contains(q, "hackathon") || Contains(q, "accelerator")
  }

  /** The first of `es` of one of `kinds` whose lower-cased name occurs in
      `q`: the extraction loops with `break`. */
  function FirstMentioned(es: seq<Entity>, kinds: set<EntityType>, q: string): (r: Option<Entity>)
    ensures r.Some? ==> r.value in es && r.value.kind in kinds && Contains(q, Lower(r.value.name))
    ensures r.None? ==> forall e | e in es && e.kind in kinds :: !Contains(q, Lower(e.name))
    decreases |es|
  {
    if es == [] then None
    else if es[0].kind in kinds && Contains(q, Lower(es[0].name)) then Some(es[0])
    else
      var r := FirstMentioned(es[1..], kinds, q);
      assert forall e | e in es[1..] :: e in es;
      r
  }

  /** The name of that first mentioned entity (the `*_hint` variables). */
  function FirstMention(es: seq<Entity>, kinds: set<EntityType>, q: string): (r: Option<string>)
    ensures r.Some? ==> exists e | e in es :: e.kind in kinds && Contains(q, Lower(e.name)) && e.name == r.value
    ensures r.None? ==> forall e | e in es && e.kind in kinds :: !Contains(q, Lower(e.name))
  {
    var m := FirstMentioned(es, kinds, q);
    if m.Some? then Some(m.value.name) else None
  }

  datatype LocatedInvestor = LocatedInvestor(investor: Entity, matchedLocation: string)

  function InvestorsOf(xs: seq<LocatedInvestor>): (es: seq<Entity>)
    ensures |es| == |xs|
  {
    seq(|xs|, i requires 0 <= i < |xs| => xs[i].investor)
  }

  /** One entry of the query result's `entities` list: its `type` label and
      the entity whose name and properties it reports. */
  datatype QueryHit = QueryHit(typeName: string, entity: Entity)

  datatype QueryResult = QueryResult(hits: seq<QueryHit>, sources: seq<string>)

  function EntitiesOf(hits: seq<QueryHit>): (es: seq<Entity>)
    ensures |es| == |hits|
  {
    seq(|hits|, i requires 0 <= i < |hits| => hits[i].entity)
  }

  lemma EntitiesOfStep(hits: seq<QueryHit>, es: seq<Entity>, i: nat, h: QueryHit)
    requires i < |es| && EntitiesOf(hits) == es[..i] && h.entity == es[i]
    ensures EntitiesOf(hits + [h]) == es[..i + 1]
  {
    assert es[..i + 1] == es[..i] + [es[i]];
  }

  /** The non-empty `source` properties of `es`, in order. */
  function SourcesOf(es: seq<Entity>): (r: seq<string>)
    ensures forall s | s in r :: s != "" && exists e | e in es :: e.properties.source == s
    ensures forall e | e in es && e.properties.source != "" :: e.properties.source in r
    decreases |es|
  {
    if es == [] then []
    else
      var init, e := es[..|es| - 1], es[|es| - 1];
      assert es == init + [e];
      SourcesOf(init) + (if e.properties.source != "" then [e.properties.source] else [])
  }

  lemma SourcesOfStep(es: seq<Entity>, i: nat)
    requires i < |es|
    ensures SourcesOf(es[..i + 1]) == SourcesOf(es[..i]) + (if es[i].properties.source != "" then [es[i].properties.source] else [])
  {
    assert es[..i + 1][..i] == es[..i];
  }

  datatype GraphStats = GraphStats(
    totalEntities: nat,
    totalRelationships: nat,
    entitiesByType: map<EntityType, nat>,
    relationshipsByType: map<RelationType, nat>)

  function RelationKindOf(r: Relationship): RelationType { r.relationType }

  function EntityTypeCount(es: seq<Entity>, t: EntityType): nat { |Filter(es, KeyIs(KindOf, t))| }

  function RelationTypeCount(rels: seq<Relationship>, t: RelationType): nat { |Filter(rels, KeyIs(RelationKindOf, t))| }

  lemma EntityTypeCountStep(init: seq<Entity>, e: Entity, t: EntityType)
    ensures EntityTypeCount(init + [e], t) == EntityTypeCount(init, t) + (if e.kind == t then 1 else 0)
  {
    FilterSnoc(init, e, KeyIs(KindOf, t));
    assert KeyIs(KindOf, t)(e) == (KindOf(e) == t);
    assert KindOf(e) == e.kind;
  }

  /** Every entity has exactly one of the eight types. */
  lemma {:induction false} EntityTypeCountsAddUp(es: seq<Entity>)
    ensures EntityTypeCount(es, Investor) + EntityTypeCount(es, Scheme) + EntityTypeCount(es, Opportunity)
          + EntityTypeCount(es, State) + EntityTypeCount(es, City) + EntityTypeCount(es, Region)
          + EntityTypeCount(es, Sector) + EntityTypeCount(es, Stage) == |es|
  {
    if es != [] {
      var init, e := es[..|es| - 1], es[|es| - 1];
      assert es == init + [e];
      EntityTypeCountsAddUp(init);
      EntityTypeCountStep(init, e, Investor);
      EntityTypeCountStep(init, e, Scheme);
      EntityTypeCountStep(init, e, Opportunity);
      EntityTypeCountStep(init, e, State);
      EntityTypeCountStep(init, e, City);
      EntityTypeCountStep(init, e, Region);
      EntityTypeCountStep(init, e, Sector);
      EntityTypeCountStep(init, e, Stage);
    }
  }

  lemma RelationTypeCountStep(init: seq<Relationship>, r: Relationship, t: RelationType)
    ensures RelationTypeCount(init + [r], t) == RelationTypeCount(init, t) + (if r.relationType == t then 1 else 0)
  {
    FilterSnoc(init, r, KeyIs(RelationKindOf, t));
    assert KeyIs(RelationKindOf, t)(r) == (RelationKindOf(r) == t);
    assert RelationKindOf(r) == r.relationType;
  }

  lemma {:induction false} RelationTypeCountsAddUp(rels: seq<Relationship>)
    ensures RelationTypeCount(rels, LocatedIn) + RelationTypeCount(rels, InvestsIn) + RelationTypeCount(rels, OperatesIn)
          + RelationTypeCount(rels, OffersScheme) + RelationTypeCount(rels, TargetsStage) + RelationTypeCount(rels, AppliesTo) == |rels|
  {
    if rels != [] {
      var init, r := rels[..|rels| - 1], rels[|rels| - 1];
      assert rels == init + [r];
      RelationTypeCountsAddUp(init);
      RelationTypeCountStep(init, r, LocatedIn);
      RelationTypeCountStep(init, r, InvestsIn);
      RelationTypeCountStep(init, r, OperatesIn);
      RelationTypeCountStep(init, r, OffersScheme);
      RelationTypeCountStep(init, r, TargetsStage);
      RelationTypeCountStep(init, r, AppliesTo);
    }
  }

  /** Pushes, in order, each of `targets` not yet visited. */
  method PushUnvisited(stack: seq<string>, visited: set<string>, targets: seq<string>) returns (s: seq<string>)
    ensures s == stack + Filter(targets, NotIn(visited))
  {
    s := stack;
    for i := 0 to |targets|
      invariant s == stack + Filter(targets[..i], NotIn(visited))
    {
      FilterPrefixStep(targets, i, NotIn(visited));
      if targets[i] !in visited {
        s := s + [targets[i]];
      }
    }
    assert targets[..|targets|] == targets;
  }

  method FindFirstEdgeInto(edges: seq<Relationship>, ids: set<string>) returns (hit: Option<Relationship>)
    ensures hit == FirstInto(edges, ids)
  {
    var i := 0;
    while i < |edges|
      invariant 0 <= i <= |edges|
      invariant FirstInto(edges[i..], ids) == FirstInto(edges, ids)
    {
      if edges[i].targetId in ids {
        return Some(edges[i]);
      }
      assert edges[i..][1..] == edges[i + 1..];
      i := i + 1;
    }
    return None;
  }

  /** The LOCATED_IN successors of `current` are the targets of its outgoing
      LOCATED_IN edges. */
  lemma UpwardTargets(rels: seq<Relationship>, current: string, ups: seq<Relationship>)
    requires ups == Filter(rels, OutgoingFrom(current, Some(LocatedIn)))
    ensures forall x | x in TargetsOf(ups) :: Relationship(current, x, LocatedIn) in rels
    ensures forall r | r in rels && r.relationType == LocatedIn && r.sourceId == current :: r.targetId in TargetsOf(ups)
  {
    var ts := TargetsOf(ups);
    forall x | x in ts ensures Relationship(current, x, LocatedIn) in rels {
      var i :| 0 <= i < |ts| && ts[i] == x;
      assert ups[i] in ups;
    }
    forall r | r in rels && r.relationType == LocatedIn && r.sourceId == current ensures r.targetId in ts {
      assert OutgoingFrom(current, Some(LocatedIn))(r);
      var i :| 0 <= i < |ups| && ups[i] == r;
      assert ts[i] == r.targetId;
    }
  }

  // ----- the state of the upward walk -----

  /** Every id ever pushed: the start and the targets of edges. */
  function WalkUniverse(rels: seq<Relationship>, start: string): set<string> {
    {start} + (set r | r in rels :: r.targetId)
  }

  /** What the walk has explored: only reachable ids, and every LOCATED_IN
      edge out of a visited id leads to a visited or a pending id. */
  ghost predicate Explored(rels: seq<Relationship>, start: string, visited: set<string>, stack: seq<string>) {
    && visited <= WalkUniverse(rels, start)
    && (forall x | x in stack :: x in WalkUniverse(rels, start) && Reachable(rels, start, x))
    && (forall v | v in visited :: Reachable(rels, start, v))
    && (forall r | r in rels && r.relationType == LocatedIn && r.sourceId in visited :: r.targetId in visited || r.targetId in stack)
    && (visited == {} ==> stack == [start])
    && (visited != {} ==> start in visited)
  }

  /** The walk's result: the visited ids that are entities, each once, the
      start first. */
  ghost predicate Collected(entities: map<string, Entity>, start: string, visited: set<string>, result: seq<Entity>) {
    && (visited == {} ==> result == [])
    && (visited != {} && start in entities ==> result != [] && result[0] == entities[start])
    && (forall e | e in result :: e.id in visited && e.id in entities && entities[e.id] == e)
    && (forall v | v in visited && v in entities :: entities[v] in result)
    && DistinctIds(result)
  }

  lemma ExploredInit(rels: seq<Relationship>, start: string)
    ensures Explored(rels, start, {}, [start])
  {
    ReachableFromItself(rels, start);
  }

  lemma ExploredSkip(rels: seq<Relationship>, start: string, visited: set<string>, stack: seq<string>)
    requires Explored(rels, start, visited, stack) && stack != [] && stack[|stack| - 1] in visited
    ensures Explored(rels, start, visited, stack[..|stack| - 1])
  {
    var rest := stack[..|stack| - 1];
    assert forall x | x in rest :: x in stack;
    assert stack == rest + [stack[|stack| - 1]];
  }

  lemma ExploredVisit(rels: seq<Relationship>, start: string, visited: set<string>, stack: seq<string>, ups: seq<Relationship>)
    requires Explored(rels, start, visited, stack) && stack != [] && stack[|stack| - 1] !in visited
    requires ups == Filter(rels, OutgoingFrom(stack[|stack| - 1], Some(LocatedIn)))
    ensures Explored(rels, start, visited + {stack[|stack| - 1]},
                     stack[..|stack| - 1] + Filter(TargetsOf(ups), NotIn(visited + {stack[|stack| - 1]})))
  {
    var current, rest := stack[|stack| - 1], stack[..|stack| - 1];
    var pushed := Filter(TargetsOf(ups), NotIn(visited + {current}));
    assert stack == rest + [current];
    assert current in stack;
    UpwardTargets(rels, current, ups);
    VisitedStaysReachable(rels, start, visited, stack, pushed);
    VisitedStaysClosed(rels, start, visited, stack, TargetsOf(ups));
  }

  /** After a visit, every pending id is still a reachable id of the universe. */
  lemma VisitedStaysReachable(rels: seq<Relationship>, start: string, visited: set<string>, stack: seq<string>, pushed: seq<string>)
    requires Explored(rels, start, visited, stack) && stack != []
    requires forall x | x in pushed :: Relationship(stack[|stack| - 1], x, LocatedIn) in rels
    ensures forall x | x in stack[..|stack| - 1] + pushed :: x in WalkUniverse(rels, start) && Reachable(rels, start, x)
  {
    var current, rest := stack[|stack| - 1], stack[..|stack| - 1];
    assert current in stack;
    forall x | x in rest + pushed ensures x in WalkUniverse(rels, start) && Reachable(rels, start, x) {
      if x in pushed {
        assert Relationship(current, x, LocatedIn) in rels;
        ReachableStep(rels, start, current, x);
      } else {
        assert x in rest;
        assert x in stack;
      }
    }
  }

  /** After a visit, every LOCATED_IN edge out of a visited id still leads to
      a visited or a pending id. */
  lemma VisitedStaysClosed(rels: seq<Relationship>, start: string, visited: set<string>, stack: seq<string>, targets: seq<string>)
    requires Explored(rels, start, visited, stack) && stack != [] && stack[|stack| - 1] !in visited
    requires forall r | r in rels && r.relationType == LocatedIn && r.sourceId == stack[|stack| - 1] :: r.targetId in targets
    ensures var current := stack[|stack| - 1];
      forall r | r in rels && r.relationType == LocatedIn && r.sourceId in visited + {current} ::
        r.targetId in visited + {current} || r.targetId in stack[..|stack| - 1] + Filter(targets, NotIn(visited + {current}))
  {
    var current, rest := stack[|stack| - 1], stack[..|stack| - 1];
    var visited' := visited + {current};
    var stack' := rest + Filter(targets, NotIn(visited'));
    assert stack == rest + [current];
    forall r | r in rels && r.relationType == LocatedIn && r.sourceId in visited' ensures r.targetId in visited' || r.targetId in stack' {
      if r.sourceId == current {
        assert r.targetId in targets;
        assert r.targetId !in visited' ==> NotIn(visited')(r.targetId);
      } else if r.targetId != current && r.targetId !in visited {
        assert r.targetId in stack;
        assert r.targetId in rest;
      }
    }
  }

  lemma CollectedVisit(entities: map<string, Entity>, start: string, visited: set<string>, result: seq<Entity>, current: string)
    requires Collected(entities, start, visited, result) && current !in visited
    requires visited == {} ==> current == start
    requires forall k | k in entities :: entities[k].id == k
    ensures Collected(entities, start, visited + {current},
                      if current in entities then result + [entities[current]] else result)
  {
  }

  /** The LOCATED_IN successors the walk pushes after visiting `current`. */
  function Pushed(rels: seq<Relationship>, current: string, visited: set<string>): seq<string> {
    Filter(TargetsOf(Filter(rels, OutgoingFrom(current, Some(LocatedIn)))), NotIn(visited))
  }

  lemma PushedInUniverse(rels: seq<Relationship>, start: string, current: string, visited: set<string>)
    ensures forall x | x in Pushed(rels, current, visited) :: x in WalkUniverse(rels, start)
  {
    var ups := Filter(rels, OutgoingFrom(current, Some(LocatedIn)));
    UpwardTargets(rels, current, ups);
    forall x | x in Pushed(rels, current, visited) ensures x in WalkUniverse(rels, start) {
      assert x in TargetsOf(ups);
      assert Relationship(current, x, LocatedIn) in rels;
    }
  }

  /** The order in which the stack walk of `traverse_location_hierarchy`
      meets the entities: pop the top id; skip it when visited; otherwise
      mark it, record its entity when there is one, and push its unvisited
      LOCATED_IN successors in edge order. */
  ghost function WalkOrder(entities: map<string, Entity>, rels: seq<Relationship>, start: string,
                           visited: set<string>, stack: seq<string>): seq<Entity>
    requires visited <= WalkUniverse(rels, start)
    requires forall x | x in stack :: x in WalkUniverse(rels, start)
    decreases WalkUniverse(rels, start) - visited, |stack|
  {
    if stack == [] then []
    else
      var current, rest := stack[|stack| - 1], stack[..|stack| - 1];
      assert current in stack && forall x | x in rest :: x in stack;
      if current in visited then WalkOrder(entities, rels, start, visited, rest)
      else
        var visited' := visited + {current};
        PushedInUniverse(rels, start, current, visited');
        (if current in entities then [entities[current]] else [])
          + WalkOrder(entities, rels, start, visited', rest + Pushed(rels, current, visited'))
  }

  lemma WalkSkip(entities: map<string, Entity>, rels: seq<Relationship>, start: string, visited: set<string>, stack: seq<string>)
    requires visited <= WalkUniverse(rels, start)
    requires forall x | x in stack :: x in WalkUniverse(rels, start)
    requires stack != [] && stack[|stack| - 1] in visited
    ensures forall x | x in stack[..|stack| - 1] :: x in WalkUniverse(rels, start)
    ensures WalkOrder(entities, rels, start, visited, stack) == WalkOrder(entities, rels, start, visited, stack[..|stack| - 1])
  {
    assert forall x | x in stack[..|stack| - 1] :: x in stack;
  }

  lemma WalkVisit(entities: map<string, Entity>, rels: seq<Relationship>, start: string, visited: set<string>, stack: seq<string>)
    requires visited <= WalkUniverse(rels, start)
    requires forall x | x in stack :: x in WalkUniverse(rels, start)
    requires stack != [] && stack[|stack| - 1] !in visited
    ensures var current := stack[|stack| - 1];
      && visited + {current} <= WalkUniverse(rels, start)
      && (forall x | x in stack[..|stack| - 1] + Pushed(rels, current, visited + {current}) :: x in WalkUniverse(rels, start))
      && WalkOrder(entities, rels, start, visited, stack)
         == (if current in entities then [entities[current]] else [])
            + WalkOrder(entities, rels, start, visited + {current}, stack[..|stack| - 1] + Pushed(rels, current, visited + {current}))
  {
    var current := stack[|stack| - 1];
    assert current in stack && forall x | x in stack[..|stack| - 1] :: x in stack;
    PushedInUniverse(rels, start, current, visited + {current});
  }

  /** `WalkVisit` with the visited entity appended to a result so far. */
  lemma WalkVisitAppend(entities: map<string, Entity>, rels: seq<Relationship>, start: string,
                        visited: set<string>, stack: seq<string>, result: seq<Entity>)
    requires visited <= WalkUniverse(rels, start)
    requires forall x | x in stack :: x in WalkUniverse(rels, start)
    requires stack != [] && stack[|stack| - 1] !in visited
    ensures var current := stack[|stack| - 1];
      var next := stack[..|stack| - 1] + Filter(TargetsOf(Filter(rels, OutgoingFrom(current, Some(LocatedIn)))), NotIn(visited + {current}));
      && visited + {current} <= WalkUniverse(rels, start)
      && (forall x | x in next :: x in WalkUniverse(rels, start))
      && (if current in entities then result + [entities[current]] else result)
           + WalkOrder(entities, rels, start, visited + {current}, next)
         == result + WalkOrder(entities, rels, start, visited, stack)
  {
    var current := stack[|stack| - 1];
    var here := if current in entities then [entities[current]] else [];
    WalkVisit(entities, rels, start, visited, stack);
    var next := stack[..|stack| - 1] + Pushed(rels, current, visited + {current});
    AppendAssoc(result, here, WalkOrder(entities, rels, start, visited + {current}, next));
  }

  // ----- what the location and scheme queries collect -----

  /** The ids in `keys` reachable upward from one of `starts`. */
  ghost function ReachedFrom(keys: set<string>, rels: seq<Relationship>, starts: seq<Entity>): set<string> {
    set k | k in keys && ReachableFromAny(rels, starts, k)
  }

  /** The ids of a complete walk result are the reachable entity ids. */
  lemma HierarchyIdsReachable(entities: map<string, Entity>, rels: seq<Relationship>, id: string, hierarchy: seq<Entity>)
    requires forall e | e in hierarchy :: e.id in entities && Reachable(rels, id, e.id)
    requires forall k | k in entities && Reachable(rels, id, k) :: entities[k] in hierarchy
    requires forall k | k in entities :: entities[k].id == k
    ensures IdsOf(hierarchy) == set k | k in entities.Keys && Reachable(rels, id, k)
  {
    forall k | k in entities.Keys && Reachable(rels, id, k) ensures k in IdsOf(hierarchy) {
      assert entities[k] in hierarchy;
    }
  }

  lemma ReachedFromSnoc(keys: set<string>, rels: seq<Relationship>, starts: seq<Entity>, m: Entity, fromM: set<string>)
    requires fromM == set k | k in keys && Reachable(rels, m.id, k)
    ensures ReachedFrom(keys, rels, starts + [m]) == ReachedFrom(keys, rels, starts) + fromM
  {
    var all := starts + [m];
    forall k | k in ReachedFrom(keys, rels, all) ensures k in ReachedFrom(keys, rels, starts) + fromM {
      var s :| s in all && Reachable(rels, s.id, k);
      if s != m {
        assert s in starts;
      }
    }
    forall k | k in ReachedFrom(keys, rels, starts) ensures k in ReachedFrom(keys, rels, all) {
      var s :| s in starts && Reachable(rels, s.id, k);
      assert s in all;
    }
    forall k | k in fromM ensures k in ReachedFrom(keys, rels, all) {
      assert m in all;
    }
  }

  /** The entities `edges` enter, in order, skipping targets that are not entities. */
  function TargetEntities(entities: map<string, Entity>, edges: seq<Relationship>): (r: seq<Entity>)
    ensures forall e | e in r :: exists rel | rel in edges :: rel.targetId in entities && entities[rel.targetId] == e
    ensures forall rel | rel in edges && rel.targetId in entities :: entities[rel.targetId] in r
    decreases |edges|
  {
    if edges == [] then []
    else
      var init, rel := edges[..|edges| - 1], edges[|edges| - 1];
      assert edges == init + [rel];
      TargetEntities(entities, init) + (if rel.targetId in entities then [entities[rel.targetId]] else [])
  }

  /** The schemes the state entities among `states` offer, state by state. */
  function OfferedBy(entities: map<string, Entity>, rels: seq<Relationship>, states: seq<Entity>): seq<Entity>
    decreases |states|
  {
    if states == [] then []
    else
      var init, st := states[..|states| - 1], states[|states| - 1];
      OfferedBy(entities, rels, init)
      + (if st.kind == State then TargetEntities(entities, Filter(rels, OutgoingFrom(st.id, Some(OffersScheme)))) else [])
  }

  lemma OfferedByStep(entities: map<string, Entity>, rels: seq<Relationship>, states: seq<Entity>, i: nat)
    requires i < |states|
    ensures OfferedBy(entities, rels, states[..i + 1]) == OfferedBy(entities, rels, states[..i])
      + (if states[i].kind == State then TargetEntities(entities, Filter(rels, OutgoingFrom(states[i].id, Some(OffersScheme)))) else [])
  {
    assert states[..i + 1][..i] == states[..i];
  }

  /** `e` is the entity an OFFERS_SCHEME edge from a state among `states` enters. */
  ghost predicate OffersTo(entities: map<string, Entity>, rels: seq<Relationship>, states: seq<Entity>, e: Entity) {
    exists st, r | st in states && r in rels ::
      st.kind == State && r.sourceId == st.id && r.relationType == OffersScheme
      && r.targetId in entities && entities[r.targetId] == e
  }

  lemma {:induction false} OfferedByMeaning(entities: map<string, Entity>, rels: seq<Relationship>, states: seq<Entity>)
    ensures forall e | e in OfferedBy(entities, rels, states) :: OffersTo(entities, rels, states, e)
    ensures forall e | OffersTo(entities, rels, states, e) :: e in OfferedBy(entities, rels, states)
  {
    if states != [] {
      var init, st := states[..|states| - 1], states[|states| - 1];
      assert states == init + [st];
      OfferedByMeaning(entities, rels, init);
      var out := Filter(rels, OutgoingFrom(st.id, Some(OffersScheme)));
      forall e | e in OfferedBy(entities, rels, states) ensures OffersTo(entities, rels, states, e) {
        if e in OfferedBy(entities, rels, init) {
          var s, r :| s in init && r in rels && s.kind == State && r.sourceId == s.id && r.relationType == OffersScheme
            && r.targetId in entities && entities[r.targetId] == e;
          assert s in states;
        } else {
          var rel :| rel in out && rel.targetId in entities && entities[rel.targetId] == e;
          assert st in states && rel in rels && OutgoingFrom(st.id, Some(OffersScheme))(rel);
        }
      }
      forall e | OffersTo(entities, rels, states, e) ensures e in OfferedBy(entities, rels, states) {
        var s, r :| s in states && r in rels && s.kind == State && r.sourceId == s.id && r.relationType == OffersScheme
          && r.targetId in entities && entities[r.targetId] == e;
        if s == st {
          assert OutgoingFrom(st.id, Some(OffersScheme))(r);
          assert r in out;
        } else {
          assert s in init;
          assert OffersTo(entities, rels, init, e);
        }
      }
    }
  }

  // ----- the graph -----

  class KnowledgeGraph {
    /** `self.entities`, and the order in which its keys were first inserted
        (the order in which a Python dictionary yields its values). */
    var entities: map<string, Entity>
    var order: seq<string>
    var relationships: seq<Relationship>

    ghost predicate Valid()
      reads this
    {
      && Distinct(order)
      && (forall k | k in order :: k in entities)
      && (forall k | k in entities :: k in order)
      && (forall k | k in entities :: entities[k].id == k)
    }

    /** Every edge leaves an entity, and every edge other than LOCATED_IN
        (whose region target `_build_graph` does not check) enters one. */
    ghost predicate EdgesAnchored()
      reads this
    {
      forall r | r in relationships ::
        r.sourceId in entities && (r.relationType != LocatedIn ==> r.targetId in entities)
    }

    /** Every entity is stored under an id of its own family. */
    ghost predicate KindsFollowIds()
      reads this
    {
      forall k | k in entities :: KindOfId(k) == Some(entities[k].kind)
    }

    /** `self.entities.values()`, in insertion order. */
    function Values(): (vs: seq<Entity>)
      reads this
      requires Valid()
      ensures |vs| == |order|
      ensures forall i | 0 <= i < |vs| :: vs[i].id == order[i] && vs[i] == entities[order[i]]
      ensures forall e | e in vs :: e.id in entities && entities[e.id] == e
      ensures forall k | k in entities :: entities[k] in vs
      ensures DistinctIds(vs)
    {
      var vs := DictValues(order, entities);
      assert forall k | k in entities :: entities[k] in vs by {
        forall k | k in entities ensures entities[k] in vs {
          var i :| 0 <= i < |order| && order[i] == k;
          assert vs[i] == entities[k];
        }
      }
      vs
    }

    function GetEntity(entityId: string): (r: Option<Entity>)
      reads this
      requires Valid()
      ensures r.Some? <==> entityId in order
      ensures r.Some? ==> r.value.id == entityId && r.value in Values()
    {
      if entityId in entities then Some(entities[entityId]) else None
    }

    constructor (seed: DataLoader.SeedData)
      ensures Valid() && EdgesAnchored() && KindsFollowIds()
      ensures entities.Keys == SeedIds(seed)
      ensures StoresSeedKinds(entities, seed)
    {
      entities := map[];
      order := [];
      relationships := [];
      new;
      BuildGraph(seed);
    }

    /** `self.entities[entity.id] = entity`: a new id goes to the end of the
        insertion order, an existing one keeps its place and gets the new value. */
    method AddEntity(e: Entity)
      requires Valid()
      modifies this
      ensures Valid()
      ensures entities == old(entities)[e.id := e]
      ensures order == if e.id in old(entities) then old(order) else old(order) + [e.id]
      ensures old(KindsFollowIds()) && KindOfId(e.id) == Some(e.kind) ==> KindsFollowIds()
      ensures relationships == old(relationships)
    {
      if e.id !in entities {
        order := order + [e.id];
      }
      entities := entities[e.id := e];
    }

    /** `self.relationships.append(relationship)`, unchecked. */
    method AddRelationship(r: Relationship)
      modifies this
      ensures relationships == old(relationships) + [r]
      ensures entities == old(entities) && order == old(order)
      ensures old(Valid()) ==> Valid()
      ensures old(EdgesAnchored()) && r.sourceId in entities && (r.relationType != LocatedIn ==> r.targetId in entities)
        ==> EdgesAnchored()
    {
      relationships := relationships + [r];
    }

    /** Adds one edge per listed target that is already an entity. */
    method AddGuardedEdges(src: string, targets: seq<string>, kind: RelationType)
      requires Valid() && EdgesAnchored() && src in entities
      modifies this
      ensures Valid() && EdgesAnchored()
      ensures entities == old(entities) && order == old(order)
      ensures relationships == old(relationships) + GuardedEdges(src, targets, kind, entities.Keys)
    {
      ghost var keys, before := entities.Keys, relationships;
      for i := 0 to |targets|
        invariant Valid() && EdgesAnchored()
        invariant entities == old(entities) && order == old(order)
        invariant relationships == before + GuardedEdges(src, targets[..i], kind, keys)
      {
        GuardedEdgesStep(src, targets, i, kind, keys);
        if targets[i] in entities {
          AppendAssoc(before, GuardedEdges(src, targets[..i], kind, keys), [Relationship(src, targets[i], kind)]);
          AddRelationship(Relationship(src, targets[i], kind));
        }
      }
      assert targets[..|targets|] == targets;
    }

    method AddRegions()
      requires Valid() && EdgesAnchored() && KindsFollowIds()
      modifies this
      ensures Valid() && EdgesAnchored() && KindsFollowIds()
      ensures entities.Keys == old(entities.Keys) + KeysOf(RegionNames, RegionId)
      ensures relationships == old(relationships)
    {
      for i := 0 to |RegionNames|
        invariant Valid() && EdgesAnchored() && KindsFollowIds()
        invariant entities.Keys == old(entities.Keys) + KeysOf(RegionNames[..i], RegionId)
        invariant relationships == old(relationships)
      {
        KeysOfStep(RegionNames, i, RegionId);
        AddEntity(RegionEntity(RegionNames[i]));
      }
      assert RegionNames[..|RegionNames|] == RegionNames;
    }

    /** One state record: the state, its LOCATED_IN edge to its region, and
        each city with its LOCATED_IN edge to the state. */
    method AddState(st: DataLoader.StateRecord)
      requires Valid() && EdgesAnchored() && KindsFollowIds()
      modifies this
      ensures Valid() && EdgesAnchored() && KindsFollowIds()
      ensures entities.Keys == old(entities.Keys) + {StateId(st.name)} + KeysOf(st.cities, CityId)
      ensures relationships == old(relationships) + StateEdges(st)
    {
      ghost var before := relationships;
      var stateId := StateId(st.name);
      AddEntity(StateEntity(st.name));
      ghost var keys := entities.Keys;
      assert keys == old(entities.Keys) + {stateId};
      ghost var regionEdge := if st.region != "" then [Relationship(stateId, RegionId(st.region), LocatedIn)] else [];
      if st.region != "" {
        AddRelationship(Relationship(stateId, RegionId(st.region), LocatedIn));
      }
      assert relationships == before + regionEdge;
      AddCities(st.name, st.cities);
      AppendAssoc(before, regionEdge, CityEdges(st.name, st.cities));
    }

    /** Each city of a state, with its LOCATED_IN edge to the state. */
    method AddCities(stateName: string, cities: seq<string>)
      requires Valid() && EdgesAnchored() && KindsFollowIds()
      modifies this
      ensures Valid() && EdgesAnchored() && KindsFollowIds()
      ensures entities.Keys == old(entities.Keys) + KeysOf(cities, CityId)
      ensures relationships == old(relationships) + CityEdges(stateName, cities)
    {
      ghost var startKeys, before := entities.Keys, relationships;
      for i := 0 to |cities|
        invariant Valid() && EdgesAnchored() && KindsFollowIds()
        invariant entities.Keys == startKeys + KeysOf(cities[..i], CityId)
        invariant relationships == before + CityEdges(stateName, cities[..i])
      {
        var edge := Relationship(CityId(cities[i]), StateId(stateName), LocatedIn);
        KeysOfStep(cities, i, CityId);
        CityEdgesStep(stateName, cities, i);
        AppendAssoc(before, CityEdges(stateName, cities[..i]), [edge]);
        AddCity(cities[i], StateId(stateName));
      }
      assert cities[..|cities|] == cities;
    }

    /** A city and its LOCATED_IN edge to its state. */
    method AddCity(city: string, stateId: string)
      requires Valid() && EdgesAnchored() && KindsFollowIds()
      modifies this
      ensures Valid() && EdgesAnchored() && KindsFollowIds()
      ensures entities == old(entities)[CityId(city) := CityEntity(city)]
      ensures relationships == old(relationships) + [Relationship(CityId(city), stateId, LocatedIn)]
    {
      AddEntity(CityEntity(city));
      AddRelationship(Relationship(CityId(city), stateId, LocatedIn));
    }

    /** One sector entity per distinct sector name; the source takes them from
        a Python set, whose order this model fixes as first occurrence. */
    method AddSectors(investors: seq<DataLoader.Investor>)
      requires Valid() && EdgesAnchored() && KindsFollowIds()
      modifies this
      ensures Valid() && EdgesAnchored() && KindsFollowIds()
      ensures entities.Keys == old(entities.Keys) + KeysOf(AllSectorNames(investors), SectorId)
      ensures relationships == old(relationships)
    {
      var names := Dedup(AllSectorNames(investors));
      for i := 0 to |names|
        invariant Valid() && EdgesAnchored() && KindsFollowIds()
        invariant entities.Keys == old(entities.Keys) + KeysOf(names[..i], SectorId)
        invariant relationships == old(relationships)
      {
        KeysOfStep(names, i, SectorId);
        AddEntity(SectorEntity(names[i]));
      }
      assert names[..|names|] == names;
    }

    method AddStages()
      requires Valid() && EdgesAnchored() && KindsFollowIds()
      modifies this
      ensures Valid() && EdgesAnchored() && KindsFollowIds()
      ensures entities.Keys == old(entities.Keys) + KeysOf(StageNames, StageId)
      ensures relationships == old(relationships)
    {
      for i := 0 to |StageNames|
        invariant Valid() && EdgesAnchored() && KindsFollowIds()
        invariant entities.Keys == old(entities.Keys) + KeysOf(StageNames[..i], StageId)
        invariant relationships == old(relationships)
      {
        KeysOfStep(StageNames, i, StageId);
        AddEntity(StageEntity(StageNames[i]));
      }
      assert StageNames[..|StageNames|] == StageNames;
    }

    /** One investor: its entity, then OPERATES_IN its city and state,
        INVESTS_IN each sector and TARGETS_STAGE each stage, each edge only
        when its target is already an entity. */
    method AddInvestor(inv: DataLoader.Investor)
      requires Valid() && EdgesAnchored() && KindsFollowIds()
      modifies this
      ensures Valid() && EdgesAnchored() && KindsFollowIds()
      ensures entities == old(entities)[InvestorId(inv.id) := InvestorEntity(inv)]
      ensures relationships == old(relationships) + InvestorEdges(inv, entities.Keys)
    {
      var invId := InvestorId(inv.id);
      AddEntity(InvestorEntity(inv));
      ghost var before := relationships;
      var cityTargets, stateTargets := OptionalId(inv.location, CityId(inv.location)), OptionalId(inv.state, StateId(inv.state));
      var sectorTargets, stageTargets := SectorIds(inv.sectors), StageIds(inv.stages);
      AddGuardedEdges(invId, cityTargets, OperatesIn);
      AddGuardedEdges(invId, stateTargets, OperatesIn);
      AddGuardedEdges(invId, sectorTargets, InvestsIn);
      AddGuardedEdges(invId, stageTargets, TargetsStage);
      ghost var e1, e2 := GuardedEdges(invId, cityTargets, OperatesIn, entities.Keys), GuardedEdges(invId, stateTargets, OperatesIn, entities.Keys);
      ghost var e3, e4 := GuardedEdges(invId, sectorTargets, InvestsIn, entities.Keys), GuardedEdges(invId, stageTargets, TargetsStage, entities.Keys);
      assert relationships == before + e1 + e2 + e3 + e4;
      assert InvestorEdges(inv, entities.Keys) == e1 + e2 + e3 + e4;
      AppendAssoc(before, e1 + e2 + e3, e4);
      AppendAssoc(before, e1 + e2, e3);
      AppendAssoc(before, e1, e2);
    }

    /** One scheme: its entity, and OFFERS_SCHEME from its state when the
        scheme names a state that is an entity. */
    method AddScheme(s: DataLoader.Scheme)
      requires Valid() && EdgesAnchored() && KindsFollowIds()
      modifies this
      ensures Valid() && EdgesAnchored() && KindsFollowIds()
      ensures entities == old(entities)[SchemeId(s.id) := SchemeEntity(s)]
      ensures relationships == old(relationships) + SchemeEdges(s, entities.Keys)
    {
      var schemeId := SchemeId(s.id);
      AddEntity(SchemeEntity(s));
      if s.state != "" {
        var stateId := StateId(s.state);
        if stateId in entities {
          AddRelationship(Relationship(stateId, schemeId, OffersScheme));
        }
      }
    }

    method AddOpportunity(o: DataLoader.Opportunity)
      requires Valid() && EdgesAnchored() && KindsFollowIds()
      modifies this
      ensures Valid() && EdgesAnchored() && KindsFollowIds()
      ensures entities == old(entities)[OpportunityId(o.id) := OpportunityEntity(o)]
      ensures relationships == old(relationships)
    {
      AddEntity(OpportunityEntity(o));
    }

    method AddStates(states: seq<DataLoader.StateRecord>)
      requires Valid() && EdgesAnchored() && KindsFollowIds()
      modifies this
      ensures Valid() && EdgesAnchored() && KindsFollowIds()
      ensures entities.Keys == old(entities.Keys) + StateAndCityIds(states)
      ensures old(relationships) <= relationships
    {
      for i := 0 to |states|
        invariant Valid() && EdgesAnchored() && KindsFollowIds()
        invariant entities.Keys == old(entities.Keys) + StateAndCityIds(states[..i])
        invariant old(relationships) <= relationships
      {
        assert states[..i + 1][..i] == states[..i];
        AddState(states[i]);
      }
      assert states[..|states|] == states;
    }

    method AddInvestors(investors: seq<DataLoader.Investor>)
      requires Valid() && EdgesAnchored() && KindsFollowIds()
      modifies this
      ensures Valid() && EdgesAnchored() && KindsFollowIds()
      ensures entities.Keys == old(entities.Keys) + KeysOf(investors, InvestorKey)
      ensures old(relationships) <= relationships
    {
      for i := 0 to |investors|
        invariant Valid() && EdgesAnchored() && KindsFollowIds()
        invariant entities.Keys == old(entities.Keys) + KeysOf(investors[..i], InvestorKey)
        invariant old(relationships) <= relationships
      {
        KeysOfStep(investors, i, InvestorKey);
        AddInvestor(investors[i]);
      }
      assert investors[..|investors|] == investors;
    }

    method AddSchemes(schemes: seq<DataLoader.Scheme>)
      requires Valid() && EdgesAnchored() && KindsFollowIds()
      modifies this
      ensures Valid() && EdgesAnchored() && KindsFollowIds()
      ensures entities.Keys == old(entities.Keys) + KeysOf(schemes, SchemeKey)
      ensures old(relationships) <= relationships
    {
      for i := 0 to |schemes|
        invariant Valid() && EdgesAnchored() && KindsFollowIds()
        invariant entities.Keys == old(entities.Keys) + KeysOf(schemes[..i], SchemeKey)
        invariant old(relationships) <= relationships
      {
        KeysOfStep(schemes, i, SchemeKey);
        AddScheme(schemes[i]);
      }
      assert schemes[..|schemes|] == schemes;
    }

    method AddOpportunities(opportunities: seq<DataLoader.Opportunity>)
      requires Valid() && EdgesAnchored() && KindsFollowIds()
      modifies this
      ensures Valid() && EdgesAnchored() && KindsFollowIds()
      ensures entities.Keys == old(entities.Keys) + KeysOf(opportunities, OpportunityKey)
      ensures relationships == old(relationships)
    {
      for i := 0 to |opportunities|
        invariant Valid() && EdgesAnchored() && KindsFollowIds()
        invariant entities.Keys == old(entities.Keys) + KeysOf(opportunities[..i], OpportunityKey)
        invariant relationships == old(relationships)
      {
        KeysOfStep(opportunities, i, OpportunityKey);
        AddOpportunity(opportunities[i]);
      }
      assert opportunities[..|opportunities|] == opportunities;
    }

    /** `_build_graph`: regions, states and cities, sectors, stages, investors,
        schemes, opportunities, in that order. */
    method BuildGraph(seed: DataLoader.SeedData)
      requires Valid() && EdgesAnchored() && KindsFollowIds()
      modifies this
      ensures Valid() && EdgesAnchored() && KindsFollowIds()
      ensures entities.Keys == old(entities.Keys) + SeedIds(seed)
      ensures old(relationships) <= relationships
      ensures StoresSeedKinds(entities, seed)
    {
      ghost var start := entities.Keys;
      ghost var regions := KeysOf(RegionNames, RegionId);
      ghost var places := StateAndCityIds(seed.states);
      ghost var sectors := KeysOf(AllSectorNames(seed.investors), SectorId);
      ghost var stages := KeysOf(StageNames, StageId);
      ghost var investors := KeysOf(seed.investors, InvestorKey);
      ghost var schemes := KeysOf(seed.schemes, SchemeKey);
      ghost var opportunities := KeysOf(seed.opportunities, OpportunityKey);
      AddRegions();
      AddStates(seed.states);
      assert entities.Keys == start + regions + places;
      AddSectors(seed.investors);
      AddStages();
      assert entities.Keys == start + regions + places + sectors + stages;
      AddInvestors(seed.investors);
      AddSchemes(seed.schemes);
      AddOpportunities(seed.opportunities);
      assert entities.Keys == start + regions + places + sectors + stages + investors + schemes + opportunities;
      UnionRegroup(start, regions, places, sectors, stages, investors, schemes, opportunities);
      SeedKindsFollowIds(entities, seed);
    }

    // ----- lookups -----

    /** `find_entities_by_type`. */
    function FindEntitiesByType(t: EntityType): (r: seq<Entity>)
      reads this
      requires Valid()
      ensures forall e | e in r :: e.kind == t && e.id in entities && entities[e.id] == e
      ensures forall k | k in entities && entities[k].kind == t :: entities[k] in r
      ensures DistinctIds(r)
    {
      FilterKeepsDistinctIds(Values(), OfType(t));
      Filter(Values(), OfType(t))
    }

    /** The entities of one type keep the dictionary's insertion order. */
    lemma FindEntitiesByTypeKeepsOrder(t: EntityType)
      requires Valid()
      ensures IsSubsequence(FindEntitiesByType(t), Values())
    {
      FilterIsSubsequence(Values(), OfType(t));
    }

    /** The entities whose names match `name`, in insertion order. */
    function NamedEntities(name: string, fuzzy: bool): (r: seq<Entity>)
      reads this
      requires Valid()
      ensures forall e | e in r :: e in Values() && NameMatches(e.name, name, fuzzy)
      ensures forall e | e in Values() && NameMatches(e.name, name, fuzzy) :: e in r
      ensures DistinctIds(r)
    {
      FilterKeepsDistinctIds(Values(), NameMatcher(name, fuzzy));
      Filter(Values(), NameMatcher(name, fuzzy))
    }

    method FindEntitiesByName(name: string, fuzzy: bool) returns (results: seq<Entity>)
      requires Valid()
      ensures results == NamedEntities(name, fuzzy)
    {
      var vs, p := Values(), NameMatcher(name, fuzzy);
      results := [];
      for i := 0 to |vs|
        invariant results == Filter(vs[..i], p)
      {
        FilterPrefixStep(vs, i, p);
        if NameMatches(vs[i].name, name, fuzzy) {
          results := results + [vs[i]];
        }
      }
      assert vs[..|vs|] == vs;
    }

    /** Every exact match is also a fuzzy match, in the same relative order. */
    lemma ExactMatchesAreFuzzyMatches(name: string)
      requires Valid()
      ensures IsSubsequence(NamedEntities(name, false), NamedEntities(name, true))
    {
      forall e: Entity | NameMatcher(name, false)(e) ensures NameMatcher(name, true)(e) {
        ContainsSelfAndEmpty(Lower(e.name));
      }
      FilterStronger(Values(), NameMatcher(name, true), NameMatcher(name, false));
    }

    method GetOutgoingRelationships(entityId: string, t: Option<RelationType>) returns (results: seq<Relationship>)
      ensures results == Filter(relationships, OutgoingFrom(entityId, t))
      ensures IsSubsequence(results, relationships)
    {
      var rels, p := relationships, OutgoingFrom(entityId, t);
      results := [];
      for i := 0 to |rels|
        invariant results == Filter(rels[..i], p)
      {
        FilterPrefixStep(rels, i, p);
        if Leaves(rels[i], entityId, t) {
          results := results + [rels[i]];
        }
      }
      assert rels[..|rels|] == rels;
      FilterIsSubsequence(rels, p);
    }

    method GetIncomingRelationships(entityId: string, t: Option<RelationType>) returns (results: seq<Relationship>)
      ensures results == Filter(relationships, IncomingTo(entityId, t))
      ensures IsSubsequence(results, relationships)
    {
      var rels, p := relationships, IncomingTo(entityId, t);
      results := [];
      for i := 0 to |rels|
        invariant results == Filter(rels[..i], p)
      {
        FilterPrefixStep(rels, i, p);
        if Enters(rels[i], entityId, t) {
          results := results + [rels[i]];
        }
      }
      assert rels[..|rels|] == rels;
      FilterIsSubsequence(rels, p);
    }

    // ----- location hierarchy -----

    /** The entities `traverse_location_hierarchy` returns, in the order
        its walk meets them. */
    ghost function Hierarchy(entityId: string): seq<Entity>
      reads this
    {
      WalkOrder(entities, relationships, entityId, {}, [entityId])
    }

    /** Depth-first walk up LOCATED_IN edges from `entityId`: each reachable
        entity once, the start first when it is an entity. */
    method TraverseLocationHierarchy(entityId: string) returns (result: seq<Entity>)
      requires Valid()
      ensures DistinctIds(result)
      ensures forall e | e in result :: e.id in entities && entities[e.id] == e && Reachable(relationships, entityId, e.id)
      ensures forall k | k in entities && Reachable(relationships, entityId, k) :: entities[k] in result
      ensures entityId in entities ==> result != [] && result[0] == entities[entityId]
      ensures result == Hierarchy(entityId)
    {
      result := [];
      var visited: set<string> := {};
      var stack := [entityId];
      ExploredInit(relationships, entityId);
      while stack != []
        invariant Explored(relationships, entityId, visited, stack)
        invariant Collected(entities, entityId, visited, result)
        invariant result + WalkOrder(entities, relationships, entityId, visited, stack) == Hierarchy(entityId)
        decreases WalkUniverse(relationships, entityId) - visited, |stack|
      {
        var current := stack[|stack| - 1];
        assert current in stack;
        if current in visited {
          ExploredSkip(relationships, entityId, visited, stack);
          WalkSkip(entities, relationships, entityId, visited, stack);
          stack := stack[..|stack| - 1];
          continue;
        }
        stack, result := VisitTop(entityId, visited, stack, result);
        visited := visited + {current};
      }
      forall k | k in entities && Reachable(relationships, entityId, k) ensures entities[k] in result {
        ClosedSetHoldsReachable(relationships, visited, entityId, k);
      }
    }

    /** One visit of the walk: pop the unvisited top id, record its entity
        when there is one, and push its unvisited LOCATED_IN successors. */
    method VisitTop(entityId: string, visited: set<string>, stack: seq<string>, result: seq<Entity>)
      returns (stack': seq<string>, result': seq<Entity>)
      requires Valid()
      requires Explored(relationships, entityId, visited, stack) && Collected(entities, entityId, visited, result)
      requires stack != [] && stack[|stack| - 1] !in visited
      ensures Explored(relationships, entityId, visited + {stack[|stack| - 1]}, stack')
      ensures Collected(entities, entityId, visited + {stack[|stack| - 1]}, result')
      ensures result' + WalkOrder(entities, relationships, entityId, visited + {stack[|stack| - 1]}, stack')
        == result + WalkOrder(entities, relationships, entityId, visited, stack)
    {
      var current := stack[|stack| - 1];
      var ups := GetOutgoingRelationships(current, Some(LocatedIn));
      ExploredVisit(relationships, entityId, visited, stack, ups);
      CollectedVisit(entities, entityId, visited, result, current);
      var entity := GetEntity(current);
      result' := if entity.Some? then result + [entity.value] else result;
      stack' := PushUnvisited(stack[..|stack| - 1], visited + {current}, TargetsOf(ups));
      WalkVisitAppend(entities, relationships, entityId, visited, stack, result);
    }

    /** The ids of the entities `traverse_location_hierarchy(id)` returns:
        those reachable upward from `id`. */
    method ReachableIds(id: string) returns (ids: set<string>)
      requires Valid()
      ensures ids == set k | k in entities.Keys && Reachable(relationships, id, k)
    {
      var hierarchy := TraverseLocationHierarchy(id);
      HierarchyIdsReachable(entities, relationships, id, hierarchy);
      ids := IdsOf(hierarchy);
    }

    /** The ids of the entities reachable upward from any of `starts`. */
    method HierarchyIds(starts: seq<Entity>) returns (ids: set<string>)
      requires Valid()
      ensures ids == ReachedFrom(entities.Keys, relationships, starts)
    {
      ids := {};
      for i := 0 to |starts|
        invariant ids == ReachedFrom(entities.Keys, relationships, starts[..i])
      {
        var fromHere := ReachableIds(starts[i].id);
        assert starts[..i + 1] == starts[..i] + [starts[i]];
        ReachedFromSnoc(entities.Keys, relationships, starts[..i], starts[i], fromHere);
        ids := ids + fromHere;
      }
      assert starts[..|starts|] == starts;
    }

    /** The location ids matched by `find_investors_in_location(name)`: every
        entity reachable upward from an entity whose name matches (fuzzily). */
    ghost function LocationIds(name: string): set<string>
      reads this
      requires Valid()
    {
      ReachedFrom(entities.Keys, relationships, NamedEntities(name, true))
    }

    /** The name of the target of an investor's first OPERATES_IN edge into
        `ids`, or "Unknown" when that target is not an entity. */
    function MatchedLocation(investorId: string, ids: set<string>): string
      reads this
    {
      var hit := FirstInto(Filter(relationships, OutgoingFrom(investorId, Some(OperatesIn))), ids);
      if hit.Some? && hit.value.targetId in entities then entities[hit.value.targetId].name else "Unknown"
    }

    /** `es` that operate in `ids`, each with the location it matched by. */
    function Locate(es: seq<Entity>, ids: set<string>): (r: seq<LocatedInvestor>)
      reads this
      ensures InvestorsOf(r) == Filter(es, EdgeInto(relationships, OperatesIn, ids))
      ensures forall x | x in r :: x.matchedLocation == MatchedLocation(x.investor.id, ids)
      decreases |es|
    {
      if es == [] then []
      else
        var init, e := es[..|es| - 1], es[|es| - 1];
        assert es == init + [e];
        var rest := Locate(init, ids);
        if HasEdgeInto(relationships, e.id, OperatesIn, ids) then
          var r := rest + [LocatedInvestor(e, MatchedLocation(e.id, ids))];
          assert InvestorsOf(r) == InvestorsOf(rest) + [e];
          r
        else rest
    }

    /** `find_investors_in_location`: the investors, in insertion order, with
        an OPERATES_IN edge into the location hierarchy of a matching name. */
    method FindInvestorsInLocation(locationName: string) returns (results: seq<LocatedInvestor>)
      requires Valid()
      ensures results == Locate(FindEntitiesByType(Investor), LocationIds(locationName))
      ensures forall x | x in results ::
        x.investor.kind == Investor && x.investor in Values()
        && HasEdgeInto(relationships, x.investor.id, OperatesIn, LocationIds(locationName))
      ensures forall e | e in FindEntitiesByType(Investor) && HasEdgeInto(relationships, e.id, OperatesIn, LocationIds(locationName)) ::
        e in InvestorsOf(results)
    {
      results := FindInvestorsInLocationImpl(locationName);
      LocatedInvestorsAreInvestors(results, LocationIds(locationName));
    }

    lemma LocatedInvestorsAreInvestors(results: seq<LocatedInvestor>, ids: set<string>)
      requires Valid()
      requires results == Locate(FindEntitiesByType(Investor), ids)
      ensures forall x | x in results ::
        x.investor.kind == Investor && x.investor in Values() && HasEdgeInto(relationships, x.investor.id, OperatesIn, ids)
      ensures forall e | e in FindEntitiesByType(Investor) && HasEdgeInto(relationships, e.id, OperatesIn, ids) :: e in InvestorsOf(results)
    {
      var invs := InvestorsOf(results);
      forall x | x in results
        ensures x.investor.kind == Investor && x.investor in Values() && HasEdgeInto(relationships, x.investor.id, OperatesIn, ids)
      {
        var i :| 0 <= i < |results| && results[i] == x;
        assert invs[i] == x.investor;
        assert x.investor in invs;
      }
      forall e | e in FindEntitiesByType(Investor) && HasEdgeInto(relationships, e.id, OperatesIn, ids) ensures e in invs {
        assert EdgeInto(relationships, OperatesIn, ids)(e);
      }
    }

    method FindInvestorsInLocationImpl(locationName: string) returns (results: seq<LocatedInvestor>)
      requires Valid()
      ensures results == Locate(FindEntitiesByType(Investor), LocationIds(locationName))
    {
      var locations := FindEntitiesByName(locationName, true);
      var investors := FindEntitiesByType(Investor);
      if locations == [] {
        NoTargetsNoEdges(investors, relationships, OperatesIn);
        assert LocationIds(locationName) == {};
        return [];
      }
      var ids := HierarchyIds(locations);
      results := LocateAll(investors, ids);
    }

    /** Each of `es` with an OPERATES_IN edge into `ids`, paired with the name
        of the target of its first such edge. */
    method LocateAll(es: seq<Entity>, ids: set<string>) returns (results: seq<LocatedInvestor>)
      requires Valid()
      ensures results == Locate(es, ids)
    {
      results := [];
      for i := 0 to |es|
        invariant results == Locate(es[..i], ids)
      {
        var e := es[i];
        assert es[..i + 1][..i] == es[..i];
        var hit := FirstEdgeFrom(e.id, OperatesIn, ids);
        if hit.Some? {
          var target := GetEntity(hit.value.targetId);
          var matched := if target.Some? then target.value.name else "Unknown";
          results := results + [LocatedInvestor(e, matched)];
        }
      }
      assert es[..|es|] == es;
    }

    // ----- sectors -----

    /** The ids of the sector entities whose names match `name` (fuzzily). */
    function SectorIdsNamed(name: string): set<string>
      reads this
      requires Valid()
    {
      set e | e in NamedEntities(name, true) && e.kind == Sector :: e.id
    }

    /** The first of an entity's outgoing `kind` edges that enters `ids`. */
    method FirstEdgeFrom(id: string, kind: RelationType, ids: set<string>) returns (hit: Option<Relationship>)
      ensures hit == FirstInto(Filter(relationships, OutgoingFrom(id, Some(kind))), ids)
      ensures hit.Some? <==> HasEdgeInto(relationships, id, kind, ids)
    {
      var out := GetOutgoingRelationships(id, Some(kind));
      hit := FindFirstEdgeInto(out, ids);
      FirstOutgoingInto(relationships, id, kind, ids);
    }

    /** The entities of `es` with a `kind` edge into `ids`, in order. */
    method WithEdgeInto(es: seq<Entity>, kind: RelationType, ids: set<string>) returns (hits: seq<Entity>)
      ensures hits == Filter(es, EdgeInto(relationships, kind, ids))
    {
      hits := [];
      for i := 0 to |es|
        invariant hits == Filter(es[..i], EdgeInto(relationships, kind, ids))
      {
        var e := es[i];
        FilterPrefixStep(es, i, EdgeInto(relationships, kind, ids));
        var hit := FirstEdgeFrom(e.id, kind, ids);
        if hit.Some? {
          hits := hits + [e];
        }
      }
      assert es[..|es|] == es;
    }

    /** `find_investors_in_sector`: the investors, in insertion order, with an
        INVESTS_IN edge into a sector entity whose name matches. */
    method FindInvestorsInSector(sectorName: string) returns (results: seq<Entity>)
      requires Valid()
      ensures results == Filter(FindEntitiesByType(Investor), EdgeInto(relationships, InvestsIn, SectorIdsNamed(sectorName)))
      ensures forall e | e in results :: e.kind == Investor && e in Values()
    {
      var sectorEntities := FindEntitiesByName(sectorName, true);
      if sectorEntities == [] {
        NoTargetsNoEdges(FindEntitiesByType(Investor), relationships, InvestsIn);
        assert SectorIdsNamed(sectorName) == {};
        return [];
      }
      var sectorIds := set e | e in sectorEntities && e.kind == Sector :: e.id;
      results := WithEdgeInto(FindEntitiesByType(Investor), InvestsIn, sectorIds);
    }

    // ----- schemes -----

    /** `e` is the target entity of an OFFERS_SCHEME edge leaving a state
        entity whose name matches `stateName`. */
    ghost predicate OfferedIn(stateName: string, e: Entity)
      reads this
      requires Valid()
    {
      OffersTo(entities, relationships, NamedEntities(stateName, true), e)
    }

    /** What `find_schemes_in_state` returns: the schemes a matching state
        offers, and every central-government scheme. */
    ghost predicate SchemeAvailable(stateName: string, e: Entity)
      reads this
      requires Valid()
    {
      e in Values() && (OfferedIn(stateName, e) || IsCentralScheme(e))
    }

    /** Appends the entity each of `edges` enters, skipping targets that are
        not entities. */
    method AppendTargets(acc: seq<Entity>, edges: seq<Relationship>) returns (r: seq<Entity>)
      requires Valid()
      ensures r == acc + TargetEntities(entities, edges)
    {
      r := acc;
      for i := 0 to |edges|
        invariant r == acc + TargetEntities(entities, edges[..i])
      {
        assert edges[..i + 1][..i] == edges[..i];
        var target := GetEntity(edges[i].targetId);
        var more := if target.Some? then [target.value] else [];
        AppendAssoc(acc, TargetEntities(entities, edges[..i]), more);
        r := r + more;
      }
      assert edges[..|edges|] == edges;
    }

    /** The first part of `find_schemes_in_state`: what the matching states
        offer, state by state. */
    method OfferedSchemes(stateName: string) returns (results: seq<Entity>)
      requires Valid()
      ensures results == OfferedBy(entities, relationships, NamedEntities(stateName, true))
    {
      results := [];
      var states := FindEntitiesByName(stateName, true);
      ghost var ents, rels := entities, relationships;
      for i := 0 to |states|
        invariant results == OfferedBy(ents, rels, states[..i])
      {
        OfferedByStep(ents, rels, states, i);
        if states[i].kind == State {
          var offers := GetOutgoingRelationships(states[i].id, Some(OffersScheme));
          results := AppendTargets(results, offers);
        }
      }
      assert states[..|states|] == states;
    }

    /** `find_schemes_in_state`: the schemes offered by a state whose name
        matches, then each central-government scheme not already listed. */
    method FindSchemesInState(stateName: string) returns (results: seq<Entity>)
      requires Valid()
      ensures OfferedBy(entities, relationships, NamedEntities(stateName, true)) <= results
      ensures forall e | e in results :: SchemeAvailable(stateName, e)
      ensures forall e | SchemeAvailable(stateName, e) :: e in results
    {
      results := OfferedSchemes(stateName);
      ghost var offered := results;
      var schemes := FindEntitiesByType(Scheme);
      results := AppendCentralSchemes(results, schemes);
      SchemesInStateMeaning(stateName, offered, schemes, results);
    }

    /** Appends each central-government scheme of `schemes` not yet listed. */
    static method AppendCentralSchemes(acc: seq<Entity>, schemes: seq<Entity>) returns (results: seq<Entity>)
      requires forall e | e in schemes :: e.kind == Scheme
      ensures acc <= results
      ensures forall e | e in results[|acc|..] :: e in schemes && IsCentralScheme(e)
      ensures forall e | e in schemes && IsCentralScheme(e) :: e in results
    {
      results := acc;
      for i := 0 to |schemes|
        invariant acc <= results
        invariant forall e | e in results[|acc|..] :: e in schemes && IsCentralScheme(e)
        invariant forall j | 0 <= j < i && IsCentralScheme(schemes[j]) :: schemes[j] in results
      {
        if schemes[i].properties.typeLabel == CentralGovernment && schemes[i] !in results {
          assert (results + [schemes[i]])[|acc|..] == results[|acc|..] + [schemes[i]];
          results := results + [schemes[i]];
        }
      }
    }

    lemma SchemesInStateMeaning(stateName: string, offered: seq<Entity>, schemes: seq<Entity>, results: seq<Entity>)
      requires Valid()
      requires offered == OfferedBy(entities, relationships, NamedEntities(stateName, true))
      requires schemes == FindEntitiesByType(Scheme)
      requires offered <= results
      requires forall e | e in results[|offered|..] :: e in schemes && IsCentralScheme(e)
      requires forall e | e in schemes && IsCentralScheme(e) :: e in results
      ensures forall e | e in results :: SchemeAvailable(stateName, e)
      ensures forall e | SchemeAvailable(stateName, e) :: e in results
    {
      OfferedByMeaning(entities, relationships, NamedEntities(stateName, true));
      forall e | e in results ensures SchemeAvailable(stateName, e) {
        var i :| 0 <= i < |results| && results[i] == e;
        if i < |offered| {
          assert e in offered;
        } else {
          assert e in results[|offered|..];
        }
      }
      forall e | SchemeAvailable(stateName, e) ensures e in results {
        if !OfferedIn(stateName, e) {
          assert e in schemes;
        }
      }
    }

    // ----- execute_cypher_like_query -----

    /** The name of the first entity, in insertion order, of one of `kinds`
        whose lower-cased name occurs in `q`. */
    method FindMentioned(kinds: set<EntityType>, q: string) returns (name: Option<string>)
      requires Valid()
      ensures name == FirstMention(Values(), kinds, q)
    {
      var e := FindMentionedEntity(kinds, q);
      name := if e.Some? then Some(e.value.name) else None;
    }

    /** The entity behind `FindMentioned`'s name. */
    method FindMentionedEntity(kinds: set<EntityType>, q: string) returns (found: Option<Entity>)
      requires Valid()
      ensures found == FirstMentioned(Values(), kinds, q)
    {
      var vs := Values();
      var i := 0;
      while i < |vs|
        invariant 0 <= i <= |vs|
        invariant FirstMentioned(vs[i..], kinds, q) == FirstMentioned(vs, kinds, q)
      {
        if vs[i].kind in kinds && Contains(q, Lower(vs[i].name)) {
          return Some(vs[i]);
        }
        assert vs[i..][1..] == vs[i + 1..];
        i := i + 1;
      }
      return None;
    }

    /** Which investors a query containing "investor" reports: those operating
        in the hierarchy of the first location it mentions and investing in the
        first sector it mentions, for whichever of the two it mentions. */
    ghost predicate InvestorAnswers(q: string, e: Entity)
      reads this
      requires Valid()
    {
      var location := FirstMention(Values(), LocationKinds, q);
      var sector := FirstMention(Values(), {Sector}, q);
      && e in Values() && e.kind == Investor
      && (DataLoader.Given(location) ==> HasEdgeInto(relationships, e.id, OperatesIn, LocationIds(location.value)))
      && (DataLoader.Given(sector) ==> HasEdgeInto(relationships, e.id, InvestsIn, SectorIdsNamed(sector.value)))
    }

    /** Which schemes a query about schemes reports: those available in the
        first state it mentions, or every scheme when it mentions none. */
    ghost predicate SchemeAnswers(q: string, e: Entity)
      reads this
      requires Valid()
    {
      var state := FirstMention(Values(), {State}, q);
      if DataLoader.Given(state) then SchemeAvailable(state.value, e) else e in Values() && e.kind == Scheme
    }

    /** Both a location and a sector were mentioned: the investors found by
        both lookups, in the order of the location lookup. */
    method InvestorsInBoth(location: string, sector: string) returns (investors: seq<Entity>)
      requires Valid()
      ensures forall e | e in investors ::
        e in Values() && e.kind == Investor
        && HasEdgeInto(relationships, e.id, OperatesIn, LocationIds(location))
        && HasEdgeInto(relationships, e.id, InvestsIn, SectorIdsNamed(sector))
      ensures forall e | e in Values() && e.kind == Investor
        && HasEdgeInto(relationships, e.id, OperatesIn, LocationIds(location))
        && HasEdgeInto(relationships, e.id, InvestsIn, SectorIdsNamed(sector)) :: e in investors
      ensures DistinctIds(investors)
    {
      var located := FindInvestorsInLocation(location);
      var inSector := FindInvestorsInSector(sector);
      var candidates := InvestorsOf(located);
      investors := KeepIds(candidates, IdsOf(inSector));
      FilterKeepsDistinctIds(FindEntitiesByType(Investor), EdgeInto(relationships, OperatesIn, LocationIds(location)));
      FilterKeepsDistinctIds(candidates, HasIdIn(IdsOf(inSector)));
      InBothMeaning(location, sector, located, inSector, investors);
    }

    /** The candidates whose ids are in `ids`, looked up again by id. */
    method KeepIds(candidates: seq<Entity>, ids: set<string>) returns (kept: seq<Entity>)
      requires Valid()
      requires forall c | c in candidates :: c.id in entities && entities[c.id] == c
      ensures kept == Filter(candidates, HasIdIn(ids))
    {
      kept := [];
      for i := 0 to |candidates|
        invariant kept == Filter(candidates[..i], HasIdIn(ids))
      {
        var c := candidates[i];
        FilterPrefixStep(candidates, i, HasIdIn(ids));
        if c.id in ids {
          assert c in candidates;
          var found := GetEntity(c.id);
          kept := kept + [found.value];
        }
      }
      assert candidates[..|candidates|] == candidates;
    }

    lemma InBothMeaning(location: string, sector: string, located: seq<LocatedInvestor>, inSector: seq<Entity>, investors: seq<Entity>)
      requires Valid()
      requires forall x | x in located ::
        x.investor.kind == Investor && x.investor in Values()
        && HasEdgeInto(relationships, x.investor.id, OperatesIn, LocationIds(location))
      requires forall e | e in FindEntitiesByType(Investor) && HasEdgeInto(relationships, e.id, OperatesIn, LocationIds(location)) ::
        e in InvestorsOf(located)
      requires inSector == Filter(FindEntitiesByType(Investor), EdgeInto(relationships, InvestsIn, SectorIdsNamed(sector)))
      requires forall e | e in investors :: e in InvestorsOf(located) && e.id in IdsOf(inSector)
      requires forall e | e in InvestorsOf(located) && e.id in IdsOf(inSector) :: e in investors
      ensures forall e | e in investors ::
        e in Values() && e.kind == Investor
        && HasEdgeInto(relationships, e.id, OperatesIn, LocationIds(location))
        && HasEdgeInto(relationships, e.id, InvestsIn, SectorIdsNamed(sector))
      ensures forall e | e in Values() && e.kind == Investor
        && HasEdgeInto(relationships, e.id, OperatesIn, LocationIds(location))
        && HasEdgeInto(relationships, e.id, InvestsIn, SectorIdsNamed(sector)) :: e in investors
    {
      var candidates := InvestorsOf(located);
      forall e | e in investors
        ensures e in Values() && e.kind == Investor
          && HasEdgeInto(relationships, e.id, OperatesIn, LocationIds(location))
          && HasEdgeInto(relationships, e.id, InvestsIn, SectorIdsNamed(sector))
      {
        var i :| 0 <= i < |candidates| && candidates[i] == e;
        assert located[i] in located;
        var e' :| e' in inSector && e'.id == e.id;
        assert e' == e;
      }
      forall e | e in Values() && e.kind == Investor
        && HasEdgeInto(relationships, e.id, OperatesIn, LocationIds(location))
        && HasEdgeInto(relationships, e.id, InvestsIn, SectorIdsNamed(sector))
        ensures e in investors
      {
        assert e in FindEntitiesByType(Investor);
        assert EdgeInto(relationships, InvestsIn, SectorIdsNamed(sector))(e);
        assert e in inSector;
      }
    }

    method QueryInvestors(q: string) returns (investors: seq<Entity>)
      requires Valid()
      ensures forall e | e in investors :: InvestorAnswers(q, e)
      ensures forall e | InvestorAnswers(q, e) :: e in investors
      ensures DistinctIds(investors)
    {
      var location := FindMentioned(LocationKinds, q);
      var sector := FindMentioned({Sector}, q);
      if DataLoader.Given(location) && DataLoader.Given(sector) {
        investors := InvestorsInBoth(location.value, sector.value);
      } else if DataLoader.Given(location) {
        var located := FindInvestorsInLocation(location.value);
        investors := InvestorsOf(located);
        FilterKeepsDistinctIds(FindEntitiesByType(Investor), EdgeInto(relationships, OperatesIn, LocationIds(location.value)));
      } else if DataLoader.Given(sector) {
        investors := FindInvestorsInSector(sector.value);
        FilterKeepsDistinctIds(FindEntitiesByType(Investor), EdgeInto(relationships, InvestsIn, SectorIdsNamed(sector.value)));
        forall e | InvestorAnswers(q, e) ensures e in investors {
          assert e in FindEntitiesByType(Investor);
          assert EdgeInto(relationships, InvestsIn, SectorIdsNamed(sector.value))(e);
        }
      } else {
        investors := FindEntitiesByType(Investor);
      }
    }

    method QuerySchemes(q: string) returns (schemes: seq<Entity>)
      requires Valid()
      ensures forall e | e in schemes :: SchemeAnswers(q, e)
      ensures forall e | SchemeAnswers(q, e) :: e in schemes
    {
      var state := FindMentioned({State}, q);
      if DataLoader.Given(state) {
        schemes := FindSchemesInState(state.value);
      } else {
        schemes := FindEntitiesByType(Scheme);
      }
    }

    /** The `entities` list of the result: one hit per entity, labelled. */
    static method Report(typeName: string, es: seq<Entity>) returns (hits: seq<QueryHit>, sources: seq<string>)
      ensures EntitiesOf(hits) == es
      ensures forall h | h in hits :: h.typeName == typeName
      ensures sources == SourcesOf(es)
    {
      hits := [];
      sources := [];
      for i := 0 to |es|
        invariant EntitiesOf(hits) == es[..i]
        invariant forall h | h in hits :: h.typeName == typeName
        invariant sources == SourcesOf(es[..i])
      {
        SourcesOfStep(es, i);
        EntitiesOfStep(hits, es, i, QueryHit(typeName, es[i]));
        hits := hits + [QueryHit(typeName, es[i])];
        if es[i].properties.source != "" {
          sources := sources + [es[i].properties.source];
        }
      }
      assert es[..|es|] == es;
    }

    /** `execute_cypher_like_query`: routes on the words of the lower-cased
        query, "investor" before scheme words before opportunity words, and
        reports each distinct non-empty source once. */
    method ExecuteCypherLikeQuery(query: string) returns (r: QueryResult)
      requires Valid()
      ensures AsksForInvestors(Lower(query)) ==>
        (forall h | h in r.hits :: h.typeName == "investor" && InvestorAnswers(Lower(query), h.entity))
        && (forall e | InvestorAnswers(Lower(query), e) :: e in EntitiesOf(r.hits))
        && DistinctIds(EntitiesOf(r.hits))
      ensures !AsksForInvestors(Lower(query)) && AsksForSchemes(Lower(query)) ==>
        (forall h | h in r.hits :: h.typeName == "scheme" && SchemeAnswers(Lower(query), h.entity))
        && (forall e | SchemeAnswers(Lower(query), e) :: e in EntitiesOf(r.hits))
      ensures !AsksForInvestors(Lower(query)) && !AsksForSchemes(Lower(query)) && AsksForOpportunities(Lower(query)) ==>
        (forall h | h in r.hits :: h.typeName == "opportunity")
        && EntitiesOf(r.hits) == FindEntitiesByType(Opportunity)
      ensures !AsksForInvestors(Lower(query)) && !AsksForSchemes(Lower(query)) && !AsksForOpportunities(Lower(query)) ==>
        r.hits == []
      ensures r.sources == Dedup(SourcesOf(EntitiesOf(r.hits)))
    {
      var q := Lower(query);
      var hits: seq<QueryHit> := [];
      var sources: seq<string> := [];
      if AsksForInvestors(q) {
        var investors := QueryInvestors(q);
        hits, sources := Report("investor", investors);
        forall e | InvestorAnswers(q, e) ensures e in EntitiesOf(hits) {
          assert e in investors;
        }
        forall h | h in hits ensures InvestorAnswers(q, h.entity) {
          var i :| 0 <= i < |hits| && hits[i] == h;
          assert EntitiesOf(hits)[i] == h.entity;
        }
      } else if AsksForSchemes(q) {
        var schemes := QuerySchemes(q);
        hits, sources := Report("scheme", schemes);
        forall e | SchemeAnswers(q, e) ensures e in EntitiesOf(hits) {
          assert e in schemes;
        }
        forall h | h in hits ensures SchemeAnswers(q, h.entity) {
          var i :| 0 <= i < |hits| && hits[i] == h;
          assert EntitiesOf(hits)[i] == h.entity;
        }
      } else if AsksForOpportunities(q) {
        hits, sources := Report("opportunity", FindEntitiesByType(Opportunity));
      }
      r := QueryResult(hits, Dedup(sources));
    }

    // ----- get_graph_stats -----

    /** The per-type counts reported by `get_graph_stats` are the sizes of
        the per-type lookups. */
    lemma EntityTypeCountIsLookupSize(t: EntityType)
      requires Valid()
      ensures EntityTypeCount(Values(), t) == |FindEntitiesByType(t)|
    {
      forall e | e in Values() ensures KeyIs(KindOf, t)(e) == OfType(t)(e) {
        assert KeyIs(KindOf, t)(e) == (KindOf(e) == t);
        assert KindOf(e) == e.kind;
      }
      FilterSamePredicate(Values(), KeyIs(KindOf, t), OfType(t));
    }

    /** `type_counts`: occurrences per entity type, types that occur only. */
    static method CountEntityTypes(vs: seq<Entity>) returns (counts: map<EntityType, nat>)
      ensures forall t | t in counts :: counts[t] == EntityTypeCount(vs, t) > 0
      ensures forall e | e in vs :: e.kind in counts
      ensures CountOf(counts, Investor) + CountOf(counts, Scheme) + CountOf(counts, Opportunity)
            + CountOf(counts, State) + CountOf(counts, City) + CountOf(counts, Region)
            + CountOf(counts, Sector) + CountOf(counts, Stage) == |vs|
    {
      counts := Tally(vs, KindOf);
      EntityTypeCountsAddUp(vs);
      forall e | e in vs ensures e.kind in counts {
        assert KindOf(e) in counts;
      }
    }

    /** `rel_counts`: occurrences per relationship type, types that occur only. */
    static method CountRelationTypes(rels: seq<Relationship>) returns (counts: map<RelationType, nat>)
      ensures forall t | t in counts :: counts[t] == RelationTypeCount(rels, t) > 0
      ensures forall r | r in rels :: r.relationType in counts
      ensures CountOf(counts, LocatedIn) + CountOf(counts, InvestsIn) + CountOf(counts, OperatesIn)
            + CountOf(counts, OffersScheme) + CountOf(counts, TargetsStage) + CountOf(counts, AppliesTo) == |rels|
    {
      counts := Tally(rels, RelationKindOf);
      RelationTypeCountsAddUp(rels);
      forall r | r in rels ensures r.relationType in counts {
        assert RelationKindOf(r) in counts;
      }
    }

    /** `get_graph_stats`: totals, and per-type counts that add up to them. */
    method GetGraphStats() returns (stats: GraphStats)
      requires Valid()
      ensures stats.totalEntities == |entities| && stats.totalRelationships == |relationships|
      ensures forall t | t in stats.entitiesByType :: stats.entitiesByType[t] == EntityTypeCount(Values(), t) > 0
      ensures forall k | k in entities :: entities[k].kind in stats.entitiesByType
      ensures forall t | t in stats.relationshipsByType :: stats.relationshipsByType[t] == RelationTypeCount(relationships, t) > 0
      ensures forall rel | rel in relationships :: rel.relationType in stats.relationshipsByType
      ensures CountOf(stats.entitiesByType, Investor) + CountOf(stats.entitiesByType, Scheme)
            + CountOf(stats.entitiesByType, Opportunity) + CountOf(stats.entitiesByType, State)
            + CountOf(stats.entitiesByType, City) + CountOf(stats.entitiesByType, Region)
            + CountOf(stats.entitiesByType, Sector) + CountOf(stats.entitiesByType, Stage) == stats.totalEntities
      ensures CountOf(stats.relationshipsByType, LocatedIn) + CountOf(stats.relationshipsByType, InvestsIn)
            + CountOf(stats.relationshipsByType, OperatesIn) + CountOf(stats.relationshipsByType, OffersScheme)
            + CountOf(stats.relationshipsByType, TargetsStage) + CountOf(stats.relationshipsByType, AppliesTo) == stats.totalRelationships
    {
      var vs := Values();
      var typeCounts := CountEntityTypes(vs);
      var relCounts := CountRelationTypes(relationships);
      assert entities.Keys == set k | k in order;
      DistinctCardinality(order);
      stats := GraphStats(|entities|, |relationships|, typeCounts, relCounts);
    }
  }
}
