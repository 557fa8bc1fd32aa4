/** The visual funding route (backend/services/route_generator.py): a chain
    of nodes from a start node, through the steps that apply to the founder,
    to a success node. Labels and styles are not modelled; a node records the
    record its label names. */
module RouteGenerator {
  import opened Wrappers
  import opened Seqs
  import opened Text
  import DataLoader
  import Graph
  import Assistant

  const NodeSpacing: int := 250
  const YCenter: int := 200
  /** The stages (lower-cased) whose route begins with DPIIT recognition. */
  const EarlyStages: seq<string> := ["idea", "validation", "prototype", "mvp"]
  const MaxSteps: nat := 5

  // ----- the state of the location -----

  /** The location is one of the state's cities, or the state itself. */
  predicate LocationInState(st: DataLoader.StateRecord, location: string) {
    MemberIgnoringCase(location, st.cities) || Lower(location) == Lower(st.name)
  }

  /** The first state, in the order of the seed file, that holds the location. */
  function ResolvedState(states: seq<DataLoader.StateRecord>, location: string): (r: Option<string>)
    ensures r.Some? ==> exists i | 0 <= i < |states| ::
      && states[i].name == r.value && LocationInState(states[i], location)
      && (forall j | 0 <= j < i :: !LocationInState(states[j], location))
    ensures r.None? ==> forall st | st in states :: !LocationInState(st, location)
    decreases |states|
  {
    if states == [] then None
    else if LocationInState(states[0], location) then Some(states[0].name)
    else
      var r := ResolvedState(states[1..], location);
      assert forall st | st in states[1..] :: st in states;
      assert forall j | 0 <= j < |states| - 1 :: states[1..][j] == states[j + 1];
      r
  }

  method ResolveState(states: seq<DataLoader.StateRecord>, location: string) returns (state: Option<string>)
    ensures state == ResolvedState(states, location)
  {
    var i := 0;
    while i < |states|
      invariant 0 <= i <= |states|
      invariant ResolvedState(states[i..], location) == ResolvedState(states, location)
    {
      if LocationInState(states[i], location) {
        return Some(states[i].name);
      }
      assert states[i..][1..] == states[i + 1..];
      i := i + 1;
    }
    return None;
  }

  // ----- the steps -----

  datatype Step =
    | DpiitStep
    | StateSchemeStep(scheme: DataLoader.Scheme)
    | CentralSchemeStep(scheme: DataLoader.Scheme)
    | InvestorStep(investor: DataLoader.Investor)
    | OpportunityStep(opportunity: DataLoader.Opportunity)
  {
    /** The node's vertical position: schemes and opportunities sit off the centre line. */
    function Y(): int {
      match this
      case DpiitStep => YCenter
      case StateSchemeStep(_) => YCenter - 80
      case CentralSchemeStep(_) => YCenter + 80
      case InvestorStep(_) => YCenter
      case OpportunityStep(_) => YCenter - 60
    }

    /** The position of this kind of step in the order the steps are considered. */
    function Rank(): nat {
      match this
      case DpiitStep => 0
      case StateSchemeStep(_) => 1
      case CentralSchemeStep(_) => 2
      case InvestorStep(_) => 3
      case OpportunityStep(_) => 4
    }
  }

  /** The schemes of the resolved state open to the stage. */
  function StateSchemes(seed: DataLoader.SeedData, stage: string, state: Option<string>): seq<DataLoader.Scheme> {
    Filter(seed.schemes, DataLoader.SchemeFilter(state, Some(stage)))
  }

  predicate IsCentral(s: DataLoader.Scheme) {
    s.kind == Graph.CentralGovernment
  }

  const CentralFilter: DataLoader.Scheme -> bool := (s: DataLoader.Scheme) => IsCentral(s)

  /** The schemes whose type is exactly "Central Government". */
  function CentralSchemes(seed: DataLoader.SeedData): seq<DataLoader.Scheme> {
    Filter(seed.schemes, CentralFilter)
  }

  /** The investors of the sector in the resolved state. */
  function LocalInvestors(seed: DataLoader.SeedData, sector: string, state: Option<string>): seq<DataLoader.Investor> {
    Filter(seed.investors, DataLoader.InvestorFilter(Some(sector), state, None))
  }

  /** The investors the investor step picks from: the local ones, or every
      investor of the sector when there are none. */
  function RouteInvestors(seed: DataLoader.SeedData, sector: string, state: Option<string>): seq<DataLoader.Investor> {
    if LocalInvestors(seed, sector, state) != [] then LocalInvestors(seed, sector, state)
    else Filter(seed.investors, DataLoader.InvestorFilter(Some(sector), None, None))
  }

  function RouteOpportunities(seed: DataLoader.SeedData, sector: string): seq<DataLoader.Opportunity> {
    Filter(seed.opportunities, DataLoader.OpportunityFilter(Some(sector), None))
  }

  /** The steps between start and success, given whether the stage is an
      early one and the lists each later step takes the first entry of. */
  function StepsFor(early: bool, stateSchemes: seq<DataLoader.Scheme>, central: seq<DataLoader.Scheme>,
                    investors: seq<DataLoader.Investor>, opportunities: seq<DataLoader.Opportunity>): seq<Step> {
    (if early then [DpiitStep] else [])
    + (if stateSchemes != [] then [StateSchemeStep(stateSchemes[0])] else [])
    + (if central != [] then [CentralSchemeStep(central[0])] else [])
    + (if investors != [] then [InvestorStep(investors[0])] else [])
    + (if opportunities != [] then [OpportunityStep(opportunities[0])] else [])
  }

  /** The steps of the route for a stage, sector and location. */
  function RouteSteps(seed: DataLoader.SeedData, stage: string, sector: string, location: string): seq<Step> {
    var state := ResolvedState(seed.states, location);
    StepsFor(Lower(stage) in EarlyStages, StateSchemes(seed, stage, state), CentralSchemes(seed),
             RouteInvestors(seed, sector, state), RouteOpportunities(seed, sector))
  }

  /** Membership in the five optional parts of the step list. */
  lemma InSteps(x: Step, a: seq<Step>, b: seq<Step>, c: seq<Step>, d: seq<Step>, e: seq<Step>)
    ensures x in a + b + c + d + e <==> x in a || x in b || x in c || x in d || x in e
  {
  }

  lemma StepsForChoice(early: bool, stateSchemes: seq<DataLoader.Scheme>, central: seq<DataLoader.Scheme>,
                       investors: seq<DataLoader.Investor>, opportunities: seq<DataLoader.Opportunity>)
    ensures var steps := StepsFor(early, stateSchemes, central, investors, opportunities);
      && (DpiitStep in steps <==> early)
      && (forall s :: StateSchemeStep(s) in steps <==> stateSchemes != [] && s == stateSchemes[0])
      && (forall s :: CentralSchemeStep(s) in steps <==> central != [] && s == central[0])
      && (forall i :: InvestorStep(i) in steps <==> investors != [] && i == investors[0])
      && (forall o :: OpportunityStep(o) in steps <==> opportunities != [] && o == opportunities[0])
  {
    var a := if early then [DpiitStep] else [];
    var b := if stateSchemes != [] then [StateSchemeStep(stateSchemes[0])] else [];
    var c := if central != [] then [CentralSchemeStep(central[0])] else [];
    var d := if investors != [] then [InvestorStep(investors[0])] else [];
    var e := if opportunities != [] then [OpportunityStep(opportunities[0])] else [];
    var steps := a + b + c + d + e;
    assert StepsFor(early, stateSchemes, central, investors, opportunities) == steps;
    InSteps(DpiitStep, a, b, c, d, e);
    forall s ensures StateSchemeStep(s) in steps <==> stateSchemes != [] && s == stateSchemes[0] {
      InSteps(StateSchemeStep(s), a, b, c, d, e);
    }
    forall s ensures CentralSchemeStep(s) in steps <==> central != [] && s == central[0] {
      InSteps(CentralSchemeStep(s), a, b, c, d, e);
    }
    forall i ensures InvestorStep(i) in steps <==> investors != [] && i == investors[0] {
      InSteps(InvestorStep(i), a, b, c, d, e);
    }
    forall o ensures OpportunityStep(o) in steps <==> opportunities != [] && o == opportunities[0] {
      InSteps(OpportunityStep(o), a, b, c, d, e);
    }
  }

  /** Which steps the route has: DPIIT recognition exactly for an early stage,
      and each other kind exactly when its list is non-empty, naming its first
      entry. */
  lemma RouteStepsChoice(seed: DataLoader.SeedData, stage: string, sector: string, location: string)
    ensures var steps := RouteSteps(seed, stage, sector, location);
      var state := ResolvedState(seed.states, location);
      && (DpiitStep in steps <==> Lower(stage) in EarlyStages)
      && (forall s :: StateSchemeStep(s) in steps <==>
            StateSchemes(seed, stage, state) != [] && s == StateSchemes(seed, stage, state)[0])
      && (forall s :: CentralSchemeStep(s) in steps <==> CentralSchemes(seed) != [] && s == CentralSchemes(seed)[0])
      && (forall i :: InvestorStep(i) in steps <==>
            RouteInvestors(seed, sector, state) != [] && i == RouteInvestors(seed, sector, state)[0])
      && (forall o :: OpportunityStep(o) in steps <==>
            RouteOpportunities(seed, sector) != [] && o == RouteOpportunities(seed, sector)[0])
  {
    var state := ResolvedState(seed.states, location);
    StepsForChoice(Lower(stage) in EarlyStages, StateSchemes(seed, stage, state), CentralSchemes(seed),
                   RouteInvestors(seed, sector, state), RouteOpportunities(seed, sector));
  }

  /** What each chosen step names: a scheme of the resolved state (or of no
      state) open to the stage, a central scheme, an investor of the sector
      (and of the state unless the state has none), an opportunity open to the
      sector. */
  lemma RouteStepsMeaning(seed: DataLoader.SeedData, stage: string, sector: string, location: string)
    ensures var steps := RouteSteps(seed, stage, sector, location);
      var state := ResolvedState(seed.states, location);
      && (forall s | StateSchemeStep(s) in steps :: s in seed.schemes && DataLoader.SchemeMatches(s, state, Some(stage)))
      && (forall s | CentralSchemeStep(s) in steps :: s in seed.schemes && IsCentral(s))
      && (forall i | InvestorStep(i) in steps ::
            i in seed.investors && DataLoader.InvestorMatches(i, Some(sector), None, None)
            && (LocalInvestors(seed, sector, state) != [] ==> DataLoader.InvestorMatches(i, Some(sector), state, None)))
      && (forall o | OpportunityStep(o) in steps :: o in seed.opportunities && DataLoader.OpportunityMatches(o, Some(sector), None))
  {
    var state := ResolvedState(seed.states, location);
    RouteStepsChoice(seed, stage, sector, location);
    var local := LocalInvestors(seed, sector, state);
    if local != [] {
      assert local[0] in local;
    } else {
      var all := Filter(seed.investors, DataLoader.InvestorFilter(Some(sector), None, None));
      if all != [] {
        assert all[0] in all;
      }
    }
    var stateSchemes := StateSchemes(seed, stage, state);
    if stateSchemes != [] {
      assert stateSchemes[0] in stateSchemes;
    }
    if CentralSchemes(seed) != [] {
      assert CentralSchemes(seed)[0] in CentralSchemes(seed);
    }
    if RouteOpportunities(seed, sector) != [] {
      assert RouteOpportunities(seed, sector)[0] in RouteOpportunities(seed, sector);
    }
  }

  /** The steps strictly increase in rank. */
  predicate Ranked(steps: seq<Step>) {
    forall i, j | 0 <= i < j < |steps| :: steps[i].Rank() < steps[j].Rank()
  }

  /** Appending at most one step of rank `k` to steps ranked below `k`. */
  lemma RankedExtend(s: seq<Step>, t: seq<Step>, k: nat)
    requires Ranked(s) && forall y | y in s :: y.Rank() < k
    requires |t| <= 1 && forall y | y in t :: y.Rank() == k
    ensures Ranked(s + t) && forall y | y in s + t :: y.Rank() < k + 1
  {
    if t != [] {
      forall i, j | 0 <= i < j < |s + t| ensures (s + t)[i].Rank() < (s + t)[j].Rank() {
        assert (s + t)[i] == s[i];
        if j == |s| {
          assert s[i] in s && (s + t)[j] == t[0];
        }
      }
    } else {
      assert s + t == s;
    }
  }

  lemma StepsForOrder(early: bool, stateSchemes: seq<DataLoader.Scheme>, central: seq<DataLoader.Scheme>,
                      investors: seq<DataLoader.Investor>, opportunities: seq<DataLoader.Opportunity>)
    ensures Ranked(StepsFor(early, stateSchemes, central, investors, opportunities))
    ensures |StepsFor(early, stateSchemes, central, investors, opportunities)| <= MaxSteps
  {
    var a := if early then [DpiitStep] else [];
    var b := if stateSchemes != [] then [StateSchemeStep(stateSchemes[0])] else [];
    var c := if central != [] then [CentralSchemeStep(central[0])] else [];
    var d := if investors != [] then [InvestorStep(investors[0])] else [];
    var e := if opportunities != [] then [OpportunityStep(opportunities[0])] else [];
    assert StepsFor(early, stateSchemes, central, investors, opportunities) == a + b + c + d + e;
    RankedExtend([], a, 0);
    assert [] + a == a;
    RankedExtend(a, b, 1);
    RankedExtend(a + b, c, 2);
    RankedExtend(a + b + c, d, 3);
    RankedExtend(a + b + c + d, e, 4);
  }

  /** Each kind of step at most once, in the order the source considers them,
      so there are at most five. */
  lemma RouteStepsOrder(seed: DataLoader.SeedData, stage: string, sector: string, location: string)
    ensures Ranked(RouteSteps(seed, stage, sector, location))
    ensures |RouteSteps(seed, stage, sector, location)| <= MaxSteps
  {
    var state := ResolvedState(seed.states, location);
    StepsForOrder(Lower(stage) in EarlyStages, StateSchemes(seed, stage, state), CentralSchemes(seed),
                  RouteInvestors(seed, sector, state), RouteOpportunities(seed, sector));
  }

  // ----- the chain of nodes -----

  datatype NodeKind = Start | StepNode(step: Step) | Success

  datatype RouteNode = RouteNode(id: string, kind: NodeKind, x: int, y: int)

  datatype RouteEdge = RouteEdge(id: string, source: string, target: string)

  datatype FundingRoute = FundingRoute(nodes: seq<RouteNode>, edges: seq<RouteEdge>, summary: string, aiPowered: bool)

  const StartNode: RouteNode := RouteNode("start", Start, 0, YCenter)

  /** `step_<n>`. */
  function StepId(n: nat): string {
    "step_" + NatToString(n)
  }

  /** The edge from one node to the next, with its `e-<from>-<to>` id. */
  function Link(from: string, to: string): RouteEdge {
    RouteEdge("e-" + from + "-" + to, from, to)
  }

  /** The `n`-th step's node: numbered from one, one spacing further right each. */
  function StepAt(n: nat, step: Step): RouteNode {
    RouteNode(StepId(n), StepNode(step), NodeSpacing * n, step.Y())
  }

  /** The nodes and edges after the steps so far: the start node, a node per
      step, and an edge joining each node to the next. */
  predicate PartialRoute(nodes: seq<RouteNode>, edges: seq<RouteEdge>, steps: seq<Step>) {
    && |nodes| == |steps| + 1
    && nodes[0] == StartNode
    && (forall i | 1 <= i < |nodes| :: nodes[i] == StepAt(i, steps[i - 1]))
    && |edges| == |steps|
    && (forall i | 0 <= i < |edges| :: edges[i] == Link(nodes[i].id, nodes[i + 1].id))
  }

  /** The finished route: the start node, a node per step, the success node
      one spacing after the last, and an edge joining each node to the next. */
  predicate IsRoute(nodes: seq<RouteNode>, edges: seq<RouteEdge>, steps: seq<Step>) {
    && |nodes| == |steps| + 2
    && nodes[0] == StartNode
    && (forall i | 1 <= i <= |steps| :: nodes[i] == StepAt(i, steps[i - 1]))
    && nodes[|nodes| - 1] == RouteNode("success", Success, NodeSpacing * (|steps| + 1), YCenter)
    && |edges| == |nodes| - 1
    && (forall i | 0 <= i < |edges| :: edges[i] == Link(nodes[i].id, nodes[i + 1].id))
  }

  /** One conditional step: `step_count += 1`, `x_pos += node_spacing`, a node
      and an edge from the last node appended, and the new node becomes the
      last one. */
  method AddStep(nodes: seq<RouteNode>, edges: seq<RouteEdge>, ghost steps: seq<Step>,
                 xPos: int, stepCount: nat, lastNodeId: string, step: Step)
    returns (nodes': seq<RouteNode>, edges': seq<RouteEdge>, xPos': int, stepCount': nat, lastNodeId': string)
    requires PartialRoute(nodes, edges, steps)
    requires stepCount == |steps| && xPos == NodeSpacing * stepCount && lastNodeId == nodes[|nodes| - 1].id
    ensures PartialRoute(nodes', edges', steps + [step])
    ensures stepCount' == |steps| + 1 && xPos' == NodeSpacing * stepCount' && lastNodeId' == nodes'[|nodes'| - 1].id
  {
    stepCount' := stepCount + 1;
    xPos' := xPos + NodeSpacing;
    var nodeId := StepId(stepCount');
    nodes' := nodes + [RouteNode(nodeId, StepNode(step), xPos', step.Y())];
    edges' := edges + [Link(lastNodeId, nodeId)];
    lastNodeId' := nodeId;
  }

  /** The success node and the edge into it. */
  method AddSuccess(nodes: seq<RouteNode>, edges: seq<RouteEdge>, ghost steps: seq<Step>,
                    xPos: int, stepCount: nat, lastNodeId: string)
    returns (nodes': seq<RouteNode>, edges': seq<RouteEdge>)
    requires PartialRoute(nodes, edges, steps)
    requires stepCount == |steps| && xPos == NodeSpacing * stepCount && lastNodeId == nodes[|nodes| - 1].id
    ensures IsRoute(nodes', edges', steps)
  {
    var x := xPos + NodeSpacing;
    nodes' := nodes + [RouteNode("success", Success, x, YCenter)];
    edges' := edges + [Link(lastNodeId, "success")];
  }

  /** The summary: the model's reply when it gave a non-empty one, else a
      sentence naming the node count, the sector and the location. */
  function Summary(llm: Assistant.LlmOutcome, nodeCount: nat, sector: string, location: string): string {
    if llm.ModelReplies? && llm.text != "" then llm.text
    else ("Generated " + NatToString(nodeCount) + " step funding route for " + sector + " startup in " + location
          + ". Follow the steps in order for the best results.")
  }

  /** The lookups the steps are chosen from: the resolved state's schemes for
      the stage, the central schemes, the sector's investors of that state or
      else of any state, and the sector's opportunities. */
  method RouteLookups(seed: DataLoader.SeedData, stage: string, sector: string, location: string)
    returns (stateSchemes: seq<DataLoader.Scheme>, centralSchemes: seq<DataLoader.Scheme>,
             investors: seq<DataLoader.Investor>, opportunities: seq<DataLoader.Opportunity>)
    ensures stateSchemes == StateSchemes(seed, stage, ResolvedState(seed.states, location))
    ensures centralSchemes == CentralSchemes(seed)
    ensures investors == RouteInvestors(seed, sector, ResolvedState(seed.states, location))
    ensures opportunities == RouteOpportunities(seed, sector)
  {
    var state := ResolveState(seed.states, location);
    stateSchemes := DataLoader.GetSchemes(seed.schemes, state, Some(stage));
    var allSchemes := DataLoader.GetSchemes(seed.schemes, None, None);
    FilterAll(seed.schemes, DataLoader.SchemeFilter(None, None));
    centralSchemes := Filter(allSchemes, CentralFilter);
    investors := DataLoader.GetInvestors(seed.investors, Some(sector), state, None);
    if investors == [] {
      investors := DataLoader.GetInvestors(seed.investors, Some(sector), None, None);
    }
    opportunities := DataLoader.GetOpportunities(seed.opportunities, Some(sector), None);
  }

  /** A conditional step: `next` is empty when the step does not apply, or
      holds the one step that does. */
  method AddIfPresent(nodes: seq<RouteNode>, edges: seq<RouteEdge>, ghost steps: seq<Step>,
                      xPos: int, stepCount: nat, lastNodeId: string, next: seq<Step>)
    returns (nodes': seq<RouteNode>, edges': seq<RouteEdge>, xPos': int, stepCount': nat, lastNodeId': string)
    requires |next| <= 1
    requires PartialRoute(nodes, edges, steps)
    requires stepCount == |steps| && xPos == NodeSpacing * stepCount && lastNodeId == nodes[|nodes| - 1].id
    ensures PartialRoute(nodes', edges', steps + next)
    ensures stepCount' == |steps + next| && xPos' == NodeSpacing * stepCount' && lastNodeId' == nodes'[|nodes'| - 1].id
  {
    if next == [] {
      assert steps + next == steps;
      nodes', edges', xPos', stepCount', lastNodeId' := nodes, edges, xPos, stepCount, lastNodeId;
    } else {
      assert next == [next[0]];
      nodes', edges', xPos', stepCount', lastNodeId' := AddStep(nodes, edges, steps, xPos, stepCount, lastNodeId, next[0]);
    }
  }

  /** The node and edge appends: the start node, each step that applies, and
      the success node, each joined to the one before. */
  method BuildChain(early: bool, stateSchemes: seq<DataLoader.Scheme>, centralSchemes: seq<DataLoader.Scheme>,
                    investors: seq<DataLoader.Investor>, opportunities: seq<DataLoader.Opportunity>)
    returns (nodes: seq<RouteNode>, edges: seq<RouteEdge>)
    ensures IsRoute(nodes, edges, StepsFor(early, stateSchemes, centralSchemes, investors, opportunities))
  {
    var dpiit := if early then [DpiitStep] else [];
    var stateScheme := if stateSchemes != [] then [StateSchemeStep(stateSchemes[0])] else [];
    var centralScheme := if centralSchemes != [] then [CentralSchemeStep(centralSchemes[0])] else [];
    var investor := if investors != [] then [InvestorStep(investors[0])] else [];
    var opportunity := if opportunities != [] then [OpportunityStep(opportunities[0])] else [];
    nodes := [StartNode];
    edges := [];
    var xPos := 0;
    var lastNodeId := "start";
    var stepCount := 0;
    nodes, edges, xPos, stepCount, lastNodeId := AddIfPresent(nodes, edges, [], xPos, stepCount, lastNodeId, dpiit);
    assert [] + dpiit == dpiit;
    nodes, edges, xPos, stepCount, lastNodeId := AddIfPresent(nodes, edges, dpiit, xPos, stepCount, lastNodeId, stateScheme);
    ghost var steps := dpiit + stateScheme;
    nodes, edges, xPos, stepCount, lastNodeId := AddIfPresent(nodes, edges, steps, xPos, stepCount, lastNodeId, centralScheme);
    steps := steps + centralScheme;
    nodes, edges, xPos, stepCount, lastNodeId := AddIfPresent(nodes, edges, steps, xPos, stepCount, lastNodeId, investor);
    steps := steps + investor;
    nodes, edges, xPos, stepCount, lastNodeId := AddIfPresent(nodes, edges, steps, xPos, stepCount, lastNodeId, opportunity);
    steps := steps + opportunity;
    assert steps == StepsFor(early, stateSchemes, centralSchemes, investors, opportunities);
    nodes, edges := AddSuccess(nodes, edges, steps, xPos, stepCount, lastNodeId);
  }

  /** `generate_funding_route`: the chain of nodes for the founder's stage,
      sector and location, and its summary. */
  method GenerateFundingRoute(seed: DataLoader.SeedData, stage: string, sector: string, location: string, llm: Assistant.LlmOutcome)
    returns (route: FundingRoute)
    ensures IsRoute(route.nodes, route.edges, RouteSteps(seed, stage, sector, location))
    ensures route.summary == Summary(llm, |route.nodes|, sector, location)
    ensures route.aiPowered <==> llm.ModelReplies?
  {
    var stateSchemes, centralSchemes, investors, opportunities := RouteLookups(seed, stage, sector, location);
    var nodes, edges := BuildChain(Lower(stage) in EarlyStages, stateSchemes, centralSchemes, investors, opportunities);
    var aiSummary: Option<string> := if llm.ModelReplies? then Some(llm.text) else None;
    var summary := if aiSummary.Some? && aiSummary.value != "" then aiSummary.value
      else ("Generated " + NatToString(|nodes|) + " step funding route for " + sector + " startup in " + location
            + ". Follow the steps in order for the best results.");
    route := FundingRoute(nodes, edges, summary, aiSummary.Some?);
  }

  // ----- properties of the chain -----

  /** Different numbers are written differently. */
  lemma {:induction false} NatToStringInjective(a: nat, b: nat)
    requires NatToString(a) == NatToString(b)
    ensures a == b
    decreases a
  {
    if a < 10 && b < 10 {
      assert NatToString(a)[0] == NatToString(b)[0];
    } else if a < 10 || b < 10 {
      assert false;
    } else {
      var sa, sb := NatToString(a / 10), NatToString(b / 10);
      assert NatToString(a) == sa + [Digit(a % 10)];
      assert NatToString(b) == sb + [Digit(b % 10)];
      assert |sa| == |sb|;
      assert sa == NatToString(a)[..|sa|] && sb == NatToString(b)[..|sb|];
      assert Digit(a % 10) == NatToString(a)[|sa|];
      NatToStringInjective(a / 10, b / 10);
    }
  }

  lemma StepIdInjective(a: nat, b: nat)
    requires StepId(a) == StepId(b)
    ensures a == b
  {
    assert StepId(a)[5..] == NatToString(a);
    assert StepId(b)[5..] == NatToString(b);
    NatToStringInjective(a, b);
  }

  /** No two nodes of a route share an id. */
  lemma RouteIdsDistinct(nodes: seq<RouteNode>, edges: seq<RouteEdge>, steps: seq<Step>)
    requires IsRoute(nodes, edges, steps)
    ensures forall i, j | 0 <= i < j < |nodes| :: nodes[i].id != nodes[j].id
  {
    forall i, j | 0 <= i < j < |nodes| ensures nodes[i].id != nodes[j].id {
      if i == 0 && j == |nodes| - 1 {
        assert nodes[i].id[1] != nodes[j].id[1];
      } else if i == 0 {
        assert nodes[j].id == StepId(j);
        assert nodes[i].id[2] != nodes[j].id[2];
      } else if j == |nodes| - 1 {
        assert nodes[i].id == StepId(i);
        assert nodes[i].id[1] != nodes[j].id[1];
      } else {
        assert nodes[i].id == StepId(i) && nodes[j].id == StepId(j);
        if nodes[i].id == nodes[j].id {
          StepIdInjective(i, j);
        }
      }
    }
  }

  /** A route runs from `start` to `success` through between zero and five
      steps, its nodes one spacing apart from x = 0, and its intermediate ids
      are `step_1` up to `step_k`. */
  lemma RouteShape(seed: DataLoader.SeedData, stage: string, sector: string, location: string,
                   nodes: seq<RouteNode>, edges: seq<RouteEdge>)
    requires IsRoute(nodes, edges, RouteSteps(seed, stage, sector, location))
    ensures 2 <= |nodes| <= MaxSteps + 2
    ensures nodes[0].id == "start" && nodes[|nodes| - 1].id == "success"
    ensures forall i | 0 <= i < |nodes| :: nodes[i].x == NodeSpacing * i
    ensures forall i | 0 < i < |nodes| - 1 :: nodes[i].id == StepId(i)
  {
    RouteStepsOrder(seed, stage, sector, location);
  }

  /** The edges form a single path through the nodes: the `i`-th node is the
      source of the `i`-th edge only and the target of the one before only. */
  lemma RouteIsPath(nodes: seq<RouteNode>, edges: seq<RouteEdge>, steps: seq<Step>)
    requires IsRoute(nodes, edges, steps)
    ensures |edges| == |nodes| - 1
    ensures forall i, j | 0 <= i < |nodes| && 0 <= j < |edges| :: edges[j].source == nodes[i].id <==> i == j
    ensures forall i, j | 0 <= i < |nodes| && 0 <= j < |edges| :: edges[j].target == nodes[i].id <==> i == j + 1
  {
    RouteIdsDistinct(nodes, edges, steps);
    forall i, j | 0 <= i < |nodes| && 0 <= j < |edges|
      ensures (edges[j].source == nodes[i].id <==> i == j) && (edges[j].target == nodes[i].id <==> i == j + 1)
    {
      assert edges[j] == Link(nodes[j].id, nodes[j + 1].id);
      if i < j { assert nodes[i].id != nodes[j].id; }
      if j < i { assert nodes[j].id != nodes[i].id; }
      if i < j + 1 { assert nodes[i].id != nodes[j + 1].id; }
      if j + 1 < i { assert nodes[j + 1].id != nodes[i].id; }
    }
  }
}
