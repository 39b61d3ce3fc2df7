/**
 The audio engine's runtime graph: it is rebuilt from a saved routing graph (mixer expansion,
 route compilation, ordering, indexing) and then evaluated block by block.
 */
module GraphEngine {
  import opened AudioGraph
  import opened Basics
  import opened GraphMixer
  import GraphSort
  import opened RoutingCompile

  // ------------------------------------------------------------------------------------------
  // Route compilation.

  /** The first thing with the given name. */
  function FindThing(things: seq<Thing>, id: string): (r: Option<nat>)
    ensures r.Some? ==> r.value < |things| && things[r.value].id == id && forall k :: 0 <= k < r.value ==> things[k].id != id
    ensures r.None? ==> forall k :: 0 <= k < |things| ==> things[k].id != id
  {
    if things == [] then None
    else
      match FindThing(things[..|things| - 1], id)
      case Some(i) => Some(i)
      case None => if things[|things| - 1].id == id then Some(|things| - 1) else None
  }

  function Endpoint(things: seq<Thing>, id: string, channel: nat, output: bool): (r: Option<Port>)
    ensures r.Some? ==> r.value.node < |things| && r.value.channel == channel < MAX_CHANNELS
  {
    match FindThing(things, id)
    case None => None
    case Some(i) =>
      if channel < (if output then things[i].outputs else things[i].inputs) && channel < MAX_CHANNELS
      then Some(Port(i, channel)) else None
  }

  function CompileRoute(things: seq<Thing>, e: Edge): (r: Option<Route>) {
    match (Endpoint(things, e.src, e.srcChannel, true), Endpoint(things, e.dst, e.dstChannel, false))
    case (Some(src), Some(dst)) => Some(Route(src, dst))
    case _ => None
  }

  function Compiled(things: seq<Thing>, edges: seq<Edge>): (routes: seq<Route>)
    ensures forall r :: r in routes ==> r.src.node < |things| && r.dst.node < |things|
    ensures |routes| <= |edges|
  {
    if edges == [] then []
    else
      Compiled(things, edges[..|edges| - 1]) +
      match CompileRoute(things, edges[|edges| - 1])
      case Some(r) => [r]
      case None => []
  }

  lemma CompiledNext(things: seq<Thing>, edges: seq<Edge>, i: nat)
    requires i < |edges|
    ensures Compiled(things, edges[..i + 1]) ==
            Compiled(things, edges[..i]) + match CompileRoute(things, edges[i])
                                           case Some(r) => [r]
                                           case None => []
  {
    assert edges[..i + 1][..i] == edges[..i];
  }

  lemma RoutesFromNext(routes: seq<Route>, r: Route, from: set<nat>)
    ensures RoutesFrom(routes + [r], from) == RoutesFrom(routes, from) + (if r.src.node in from then [r] else [])
  {
    assert (routes + [r])[..|routes|] == routes;
  }

  /** What an endpoint contributes at frame f: nothing unless it is a real output channel. */
  ghost function ValueOf(things: seq<Thing>, cfg: Config, outs: Signals, f: nat): Values
    requires f < BUFFER_FRAMES
  {
    (id: string, channel: nat) =>
      match Endpoint(things, id, channel, true)
      case Some(p) => Amplified(outs(p)[f], cfg.gains(p.node))
      case None => 0.0
  }

  lemma CompiledLast(things: seq<Thing>, cfg: Config, e: Edge, id: string, p: Port, outs: Signals, f: nat)
    requires f < BUFFER_FRAMES && Endpoint(things, id, p.channel, false) == Some(p)
    ensures match CompileRoute(things, e)
            case Some(r) => Term(cfg, r, p, outs, f) ==
                            if e.dst == id && e.dstChannel == p.channel then ValueOf(things, cfg, outs, f)(e.src, e.srcChannel) else 0.0
            case None => e.dst == id && e.dstChannel == p.channel ==> ValueOf(things, cfg, outs, f)(e.src, e.srcChannel) == 0.0
  {
    var dst := Endpoint(things, e.dst, e.dstChannel, false);
    if dst == Some(p) {
      assert things[p.node].id == id && things[p.node].id == e.dst;
    }
  }

  lemma {:induction false} CompiledSum(things: seq<Thing>, cfg: Config, edges: seq<Edge>, id: string, p: Port, outs: Signals, f: nat)
    requires f < BUFFER_FRAMES && Endpoint(things, id, p.channel, false) == Some(p)
    ensures InputSum(cfg, Compiled(things, edges), p, outs, f) == EdgeSum(edges, id, p.channel, ValueOf(things, cfg, outs, f))
  {
    if edges != [] {
      var init, last := edges[..|edges| - 1], edges[|edges| - 1];
      CompiledSum(things, cfg, init, id, p, outs, f);
      CompiledLast(things, cfg, last, id, p, outs, f);
      var route := CompileRoute(things, last);
      if route.Some? {
        InputSumLast(cfg, Compiled(things, init), route.value, p, outs, f);
      } else {
        assert Compiled(things, edges) == Compiled(things, init);
      }
    }
  }

  // ------------------------------------------------------------------------------------------
  // Classification.

  datatype SlotParams = SlotParams(enabled: bool, effectType: EffectType)

  predicate EndsWith(s: string, suffix: string) {
    |suffix| <= |s| && s[|s| - |suffix|..] == suffix
  }

  function Classify(thing: Thing, effects: map<string, SlotParams>): (k: Kind)
    ensures k.Sink? <==> thing.outputs == 0
    ensures k.Mixer? ==> thing.id == HELPER
  {
    if thing.outputs == 0 then Sink
    else if thing.id !in effects &&
            (thing.inputs == 0 || thing.id == "soundboard_out" || thing.id == "usb_gadget_in" || EndsWith(thing.id, "_in")) then Source
    else if thing.id == HELPER then Mixer
    else if thing.id in effects then Effect(effects[thing.id].enabled, effects[thing.id].effectType)
    else Pass
  }

  function NodeOf(thing: Thing, effects: map<string, SlotParams>): Node {
    Node(Classify(thing, effects), thing.inputs, thing.outputs)
  }

  function ConfigOf(things: seq<Thing>, effects: map<string, SlotParams>, gains: nat -> real, fx: (Port, Block) -> Block): Config {
    Config(seq(|things|, i requires 0 <= i < |things| => NodeOf(things[i], effects)), gains, fx)
  }

  /** Nodes whose routes go into the process table: everything that is neither source nor sink. */
  function Inner(cfg: Config): set<nat> {
    set n | 0 <= n < |cfg.nodes| && !cfg.IsSource(n) && !cfg.nodes[n].kind.Sink?
  }

  /** The signals solve the saved graph, the mixer being read as a unit-gain sum per channel. */
  ghost predicate SolvesSaved(things: seq<Thing>, saved: seq<Edge>, cfg: Config, rendered: Signals, ins: Signals, outs: Signals) {
    && (forall id: string, p: Port, f ::
          id != HELPER && Endpoint(things, id, p.channel, false) == Some(p) && !cfg.Blocks(p.node) && 0 <= f < BUFFER_FRAMES ==>
          ins(p)[f] == SavedSum(saved, saved, id, p.channel, ValueOf(things, cfg, outs, f)))
    && (forall p :: outs(p) == NodeOutput(cfg, p, rendered, ins))
  }

  ghost predicate MixerFree(edges: seq<Edge>) {
    forall e :: e in edges ==> e.src != HELPER && e.dst != HELPER
  }

  lemma {:induction false} ContinuedMixerFree(incoming: Edge, edges: seq<Edge>)
    requires incoming.src != HELPER && forall e :: e in edges ==> !(e.src == HELPER && e.dst == HELPER)
    ensures MixerFree(Continued(incoming, edges))
  {
    if edges != [] {
      ContinuedMixerFree(incoming, edges[..|edges| - 1]);
    }
  }

  lemma {:induction false} PathsMixerFree(incoming: seq<Edge>, edges: seq<Edge>)
    requires forall e :: e in edges || e in incoming ==> !(e.src == HELPER && e.dst == HELPER)
    ensures MixerFree(Paths(incoming, edges))
  {
    if incoming != [] {
      PathsMixerFree(incoming[..|incoming| - 1], edges);
      if incoming[|incoming| - 1].dst == HELPER {
        ContinuedMixerFree(incoming[|incoming| - 1], edges);
      }
    }
  }

  lemma {:induction false} DirectMixerFree(edges: seq<Edge>)
    ensures MixerFree(Direct(edges))
  {
    if edges != [] {
      DirectMixerFree(edges[..|edges| - 1]);
    }
  }

  /** Unless a mixer feeds a mixer, the expanded graph does not mention it at all. */
  lemma ExpandedMixerFree(saved: seq<Edge>)
    requires forall e :: e in saved ==> !(e.src == HELPER && e.dst == HELPER)
    ensures MixerFree(Expanded(saved))
  {
    DirectMixerFree(saved);
    PathsMixerFree(saved, saved);
  }

  lemma {:induction false} CompiledSources(things: seq<Thing>, effects: map<string, SlotParams>, cfg: Config, edges: seq<Edge>)
    requires MixerFree(edges) && cfg.nodes == ConfigOf(things, effects, cfg.gains, cfg.fx).nodes
    ensures forall r :: r in Compiled(things, edges) ==> cfg.IsSource(r.src.node) || cfg.IsProcess(r.src.node)
  {
    if edges != [] {
      CompiledSources(things, effects, cfg, edges[..|edges| - 1]);
    }
  }

  /** A solution of the compiled routes solves the saved graph they came from. */
  lemma CompiledSolvesSaved(things: seq<Thing>, saved: seq<Edge>, cfg: Config, rendered: Signals, ins: Signals, outs: Signals)
    requires Solves(cfg, Compiled(things, Expanded(saved)), rendered, ins, outs)
    ensures SolvesSaved(things, saved, cfg, rendered, ins, outs)
  {
    forall id: string, p: Port, f |
      id != HELPER && Endpoint(things, id, p.channel, false) == Some(p) && !cfg.Blocks(p.node) && 0 <= f < BUFFER_FRAMES
      ensures ins(p)[f] == SavedSum(saved, saved, id, p.channel, ValueOf(things, cfg, outs, f))
    {
      CompiledSum(things, cfg, Expanded(saved), id, p, outs, f);
      ExpansionPreservesSums(saved, id, p.channel, ValueOf(things, cfg, outs, f));
    }
  }

  lemma {:induction false} RoutesFromTwice(routes: seq<Route>, outer: set<nat>, n: nat)
    requires n in outer
    ensures RoutesFrom(RoutesFrom(routes, outer), {n}) == RoutesFrom(routes, {n})
  {
    if routes != [] {
      var init, last := routes[..|routes| - 1], routes[|routes| - 1];
      RoutesFromTwice(init, outer, n);
      if last.src.node in outer {
        assert (RoutesFrom(init, outer) + [last])[..|RoutesFrom(init, outer) + [last]| - 1] == RoutesFrom(init, outer);
      } else {
        assert RoutesFrom(routes, outer) == RoutesFrom(init, outer);
      }
    }
  }

  lemma CyclicSameMembers(a: seq<nat>, b: seq<nat>, routes: seq<Route>)
    requires (forall n :: n in a <==> n in b) && GraphSort.Cyclic(a, routes)
    ensures GraphSort.Cyclic(b, routes)
  {
    var walk :| GraphSort.Cycle(a, routes, walk);
    forall i | 0 <= i < |walk| - 1
      ensures GraphSort.Feeds(b, routes, walk[i], walk[i + 1])
    {
      assert GraphSort.Feeds(a, routes, walk[i], walk[i + 1]);
    }
    assert GraphSort.Cycle(b, routes, walk);
  }

  /** The sorted node list is a topological order of the whole graph exactly when it is acyclic. */
  lemma SortedIsTopological(cfg: Config, routes: seq<Route>, listed: seq<nat>, order: seq<nat>)
    requires forall n: nat :: n in listed <==> cfg.IsProcess(n)
    requires GraphSort.TopologicalOrder(listed, RoutesFrom(routes, Inner(cfg)), order) || order == listed
    requires GraphSort.TopologicalOrder(listed, RoutesFrom(routes, Inner(cfg)), order) <==>
             !GraphSort.Cyclic(listed, RoutesFrom(routes, Inner(cfg)))
    ensures forall n: nat :: n in order <==> n in listed
    ensures Topological(cfg, routes, order) <==> !GraphSort.Cyclic(order, RoutesFrom(routes, Inner(cfg)))
  {
    var inner := RoutesFrom(routes, Inner(cfg));
    if GraphSort.Cyclic(listed, inner) {
      CyclicSameMembers(listed, order, inner);
      if Topological(cfg, routes, order) {
        TopologicalIsOrdered(cfg, routes, order);
        GraphSort.OrderExcludesCycle(order, inner, order);
      }
    } else {
      if GraphSort.Cyclic(order, inner) {
        CyclicSameMembers(order, listed, inner);
      }
      forall r, i, j |
        r in routes && 0 <= i < |order| && 0 <= j < |order| && r.src.node == order[i] && r.dst.node == order[j]
        ensures i < j
      {
        assert cfg.IsProcess(order[i]) && order[i] in listed && order[j] in listed;
        assert r in inner;
        assert GraphSort.Feeds(listed, inner, order[i], order[j]);
        var k :| 0 <= k < j && order[k] == order[i];
        assert k == i;
      }
    }
  }

  /** The processing nodes form a cycle. */
  ghost predicate Looped(cfg: Config, routes: seq<Route>) {
    exists listed: seq<nat> ::
      (forall n: nat :: n in listed <==> cfg.IsProcess(n)) && GraphSort.Cyclic(listed, RoutesFrom(routes, Inner(cfg)))
  }

  lemma LoopedIsCyclic(cfg: Config, routes: seq<Route>, listed: seq<nat>)
    requires forall n: nat :: n in listed <==> cfg.IsProcess(n)
    ensures Looped(cfg, routes) <==> GraphSort.Cyclic(listed, RoutesFrom(routes, Inner(cfg)))
  {
    if Looped(cfg, routes) {
      var other: seq<nat> :|
        (forall n: nat :: n in other <==> cfg.IsProcess(n)) && GraphSort.Cyclic(other, RoutesFrom(routes, Inner(cfg)));
      CyclicSameMembers(other, listed, RoutesFrom(routes, Inner(cfg)));
    }
  }

  lemma TopologicalIsOrdered(cfg: Config, routes: seq<Route>, order: seq<nat>)
    requires Topological(cfg, routes, order)
    ensures GraphSort.TopologicalOrder(order, RoutesFrom(routes, Inner(cfg)), order)
  {
    forall a: nat, j | 0 <= j < |order| && GraphSort.Feeds(order, RoutesFrom(routes, Inner(cfg)), a, order[j])
      ensures a in order[..j]
    {
      var i :| 0 <= i < |order| && order[i] == a;
      assert i < j;
      assert order[..j][i] == a;
    }
  }

  // ------------------------------------------------------------------------------------------
  // The runtime graph.

  class RuntimeGraph {
    var things: seq<Thing>
    var cfg: Config
    var sourceNodes: seq<nat>
    var processNodes: seq<nat>
    var sinkNodes: seq<nat>
    var sourceRoutes: seq<Route>
    var processRoutes: seq<Route>
    var processRouteStart: seq<nat>
    var processRouteLen: seq<nat>
    var processRoutesBySrc: seq<Route>
    var inputs: Port -> Buf
    var outputs: Port -> Buf
    var contributions: Port -> nat
    var memory: Buf -> Block

    ghost function State(): Buffers
      reads this
    {
      Buffers(inputs, outputs, contributions, memory)
    }

    /** The tables describe the given routes. */
    ghost predicate Built(routes: seq<Route>)
      reads `things, `cfg, `sourceNodes, `processNodes, `sourceRoutes
      reads `processRouteStart, `processRouteLen, `processRoutesBySrc
    {
      && |cfg.nodes| == |things| == |processRouteStart| == |processRouteLen|
      && |processRoutesBySrc| == MAX_EDGES
      && sourceRoutes == RoutesFrom(routes, Sources(cfg))
      && (forall n: nat :: n in sourceNodes <==> cfg.IsSource(n))
      && (forall n: nat :: n in processNodes <==> cfg.IsProcess(n))
      && (forall n :: 0 <= n < |things| && cfg.IsProcess(n) ==> Indexed(routes, n))
    }

    ghost predicate Indexed(routes: seq<Route>, n: nat)
      reads `processRouteStart, `processRouteLen, `processRoutesBySrc
    {
      && n < |processRouteStart| && n < |processRouteLen|
      && processRouteStart[n] + processRouteLen[n] <= |processRoutesBySrc|
      && processRoutesBySrc[processRouteStart[n]..processRouteStart[n] + processRouteLen[n]] == RoutesFrom(routes, {n})
    }

    constructor ()
      ensures memory(Silence) == Zero() && things == []
    {
      things, cfg := [], Config([], _ => 1.0, (p, b) => b);
      sourceNodes, processNodes, sinkNodes := [], [], [];
      sourceRoutes, processRoutes, processRoutesBySrc := [], [], [];
      processRouteStart, processRouteLen := [], [];
      inputs, outputs, contributions, memory := _ => Silence, _ => Silence, _ => 0, _ => Zero();
    }

    /** Sorts the things into sources, processing nodes and sinks. */
    method ClassifyNodes(effects: map<string, SlotParams>, gains: nat -> real, fx: (Port, Block) -> Block)
      modifies `cfg, `sourceNodes, `processNodes, `sinkNodes
      ensures cfg == ConfigOf(things, effects, gains, fx) && |cfg.nodes| == |things|
      ensures forall n: nat :: n in sourceNodes <==> cfg.IsSource(n)
      ensures forall n: nat :: n in processNodes <==> cfg.IsProcess(n)
      ensures forall n: nat :: n in sinkNodes <==> n < |things| && things[n].outputs == 0
      ensures GraphSort.Distinct(processNodes)
    {
      cfg := ConfigOf(things, effects, gains, fx);
      sourceNodes, processNodes, sinkNodes := [], [], [];
      for i := 0 to |things|
        invariant cfg == ConfigOf(things, effects, gains, fx)
        invariant forall n: nat :: n in sourceNodes <==> n < i && cfg.IsSource(n)
        invariant forall n: nat :: n in processNodes <==> n < i && cfg.IsProcess(n)
        invariant forall n: nat :: n in sinkNodes <==> n < i && things[n].outputs == 0
        invariant forall k :: 0 <= k < |processNodes| ==> processNodes[k] < i
        invariant GraphSort.Distinct(processNodes)
      {
        var kind := Classify(things[i], effects);
        if kind.Source? {
          sourceNodes := sourceNodes + [i];
        }
        if (kind.Effect? || kind.Pass?) && things[i].id != HELPER {
          processNodes := processNodes + [i];
        }
        if kind.Sink? {
          sinkNodes := sinkNodes + [i];
        }
      }
    }

    /** Compiles the edges into the two route tables, by the kind of the node they leave. */
    method CompileRoutes(edges: seq<Edge>)
      requires |edges| <= MAX_EDGES && |cfg.nodes| == |things|
      modifies `sourceRoutes, `processRoutes
      ensures sourceRoutes == RoutesFrom(Compiled(things, edges), Sources(cfg))
      ensures processRoutes == RoutesFrom(Compiled(things, edges), Inner(cfg))
    {
      ghost var before: seq<Route> := [];
      sourceRoutes, processRoutes := [], [];
      for i := 0 to |edges|
        invariant before == Compiled(things, edges[..i])
        invariant sourceRoutes == RoutesFrom(before, Sources(cfg)) && |sourceRoutes| <= i
        invariant processRoutes == RoutesFrom(before, Inner(cfg)) && |processRoutes| <= i
      {
        CompiledNext(things, edges, i);
        var compiled := CompileRoute(things, edges[i]);
        if compiled.Some? {
          FileRoute(compiled.value, before);
          before := before + [compiled.value];
        }
      }
      assert edges[..|edges|] == edges;
    }

    method FileRoute(route: Route, ghost before: seq<Route>)
      requires route.src.node < |cfg.nodes| && |sourceRoutes| < MAX_EDGES && |processRoutes| < MAX_EDGES
      requires sourceRoutes == RoutesFrom(before, Sources(cfg)) && processRoutes == RoutesFrom(before, Inner(cfg))
      modifies `sourceRoutes, `processRoutes
      ensures sourceRoutes == RoutesFrom(before + [route], Sources(cfg)) && |sourceRoutes| <= old(|sourceRoutes|) + 1
      ensures processRoutes == RoutesFrom(before + [route], Inner(cfg)) && |processRoutes| <= old(|processRoutes|) + 1
    {
      RoutesFromNext(before, route, Sources(cfg));
      RoutesFromNext(before, route, Inner(cfg));
      var n := route.src.node;
      if cfg.IsSource(n) {
        if |sourceRoutes| < MAX_EDGES {
          sourceRoutes := sourceRoutes + [route];
        }
      } else if !cfg.nodes[n].kind.Sink? && |processRoutes| < MAX_EDGES {
        processRoutes := processRoutes + [route];
      }
    }

    /** Puts the processing nodes in topological order, or leaves them alone if they form a cycle. */
    method SortNodes(ghost routes: seq<Route>)
      requires processRoutes == RoutesFrom(routes, Inner(cfg)) && |cfg.nodes| == |things|
      requires forall r :: r in routes ==> r.dst.node < |things|
      requires (forall n: nat :: n in processNodes <==> cfg.IsProcess(n)) && GraphSort.Distinct(processNodes)
      modifies `processNodes
      ensures forall n: nat :: n in processNodes <==> cfg.IsProcess(n)
      ensures Topological(cfg, routes, processNodes) <==> !Looped(cfg, routes)
      ensures Looped(cfg, routes) ==> processNodes == old(processNodes)
    {
      ghost var listed := processNodes;
      processNodes := GraphSort.SortProcessNodes(processNodes, processRoutes, |things|);
      SortedIsTopological(cfg, routes, listed, processNodes);
      LoopedIsCyclic(cfg, routes, listed);
      LoopedIsCyclic(cfg, routes, processNodes);
    }

    /** Groups the process routes by their source node. */
    method IndexRoutes(ghost routes: seq<Route>)
      requires processRoutes == RoutesFrom(routes, Inner(cfg)) && |routes| <= MAX_EDGES && |cfg.nodes| == |things|
      modifies `processRouteStart, `processRouteLen, `processRoutesBySrc
      ensures |processRouteStart| == |processRouteLen| == |things| && |processRoutesBySrc| == MAX_EDGES
      ensures forall n :: 0 <= n < |things| && cfg.IsProcess(n) ==> Indexed(routes, n)
    {
      GraphSort.CountAtMost(routes, Inner(cfg));
      processRouteStart, processRouteLen, processRoutesBySrc := GraphSort.BuildProcessRouteIndex(processRoutes, |things|);
      forall n | 0 <= n < |things| && cfg.IsProcess(n)
        ensures Indexed(routes, n)
      {
        RoutesFromTwice(routes, Inner(cfg), n);
      }
    }

    /**
     Rebuilds every table from a graph. The processing order is topological exactly when the
     processing nodes form no cycle.
     */
    method Rebuild(graphThings: seq<Thing>, edges: seq<Edge>, effects: map<string, SlotParams>,
                   gains: nat -> real, fx: (Port, Block) -> Block)
      requires |edges| <= MAX_EDGES
      modifies this
      ensures things == graphThings && cfg == ConfigOf(things, effects, gains, fx)
      ensures Built(Compiled(things, edges)) && memory(Silence) == old(memory(Silence))
      ensures Topological(cfg, Compiled(things, edges), processNodes) <==> !Looped(cfg, Compiled(things, edges))
    {
      hide ConfigOf, Compiled, RoutesFrom, Inner, Cleared, Topological, Looped;
      things := graphThings;
      ClassifyNodes(effects, gains, fx);
      CompileRoutes(edges);
      ghost var routes := Compiled(things, edges);
      SortNodes(routes);
      IndexRoutes(routes);
      ClearRuntimeBuffers();
    }

    method RouteCompiledEdge(route: Route)
      modifies `inputs, `contributions, `memory
      ensures State() == Routed(cfg, old(State()), route)
    {
      var gain := cfg.gains(route.src.node);
      var src := outputs(route.src);
      if gain == 0.0 || src == Silence || cfg.Blocks(route.dst.node) {
        return;
      }
      var own, count := InStore(route.dst), contributions(route.dst);
      if count == 0 {
        if gain == 1.0 {
          inputs := Set(inputs, route.dst, src);
        } else {
          var scaled := ScaleBlock(memory(src), gain);
          memory := Set<Buf, Block>(memory, own, scaled);
          inputs := Set(inputs, route.dst, own);
        }
        contributions := Set(contributions, route.dst, 1);
        return;
      }
      if inputs(route.dst) != own {
        memory := Set<Buf, Block>(memory, own, memory(inputs(route.dst)));
      }
      var mixed := MixBlock(memory(own), memory(src), gain);
      memory := Set<Buf, Block>(memory, own, mixed);
      inputs := Set(inputs, route.dst, own);
      contributions := Set(contributions, route.dst, if count < 255 then count + 1 else count);
    }

    method ProcessNode(n: nat)
      modifies `outputs, `memory
      ensures State() == Processed(cfg, old(State()), n)
    {
      if cfg.Carried(n) == 0 {
        return;
      }
      for channel := 0 to cfg.OutputChannels(n)
        invariant State() == ProcessedUpTo(cfg, old(State()), n, channel)
      {
        var p := Port(n, channel);
        if cfg.Blocks(n) || channel >= cfg.Carried(n) {
          outputs := Set(outputs, p, Silence);
        } else if cfg.Runs(n) {
          outputs := Set(outputs, p, OutStore(p));
          memory := Set<Buf, Block>(memory, OutStore(p), cfg.fx(p, memory(inputs(p))));
        } else {
          outputs := Set(outputs, p, inputs(p));
        }
      }
    }

    method RunRoutes(routes: seq<Route>)
      modifies `inputs, `contributions, `memory
      ensures State() == RoutedAll(cfg, old(State()), routes)
    {
      for i := 0 to |routes|
        invariant State() == RoutedAll(cfg, old(State()), routes[..i])
      {
        assert routes[..i + 1][..i] == routes[..i];
        RouteCompiledEdge(routes[i]);
      }
      assert routes[..|routes|] == routes;
    }

    method ClearRuntimeBuffers()
      modifies `inputs, `outputs, `contributions, `memory
      ensures State() == Cleared(cfg, old(State())) && memory(Silence) == old(memory(Silence))
    {
      var cleared := Cleared(cfg, Buffers(inputs, outputs, contributions, memory));
      inputs, outputs, contributions, memory := cleared.inputs, cleared.outputs, cleared.contributions, cleared.memory;
    }

    /** Whatever the sources render this block goes to their own output storage. */
    method RenderSourceNodes(rendered: Signals)
      modifies `memory
      ensures State() == Rendered(cfg, old(State()), rendered)
    {
      memory := Rendered(cfg, Buffers(inputs, outputs, contributions, memory), rendered).memory;
    }

    /** Each node in turn is processed and its routes, found through the index, are run. */
    method RunProcessNodes(ghost routes: seq<Route>)
      requires forall n :: n in processNodes ==> Indexed(routes, n)
      modifies `inputs, `outputs, `contributions, `memory
      ensures State() == ProcessedAll(cfg, old(State()), routes, processNodes)
    {
      hide RoutesFrom, RoutedAll, Processed, Routed;
      for i := 0 to |processNodes|
        invariant State() == ProcessedAll(cfg, old(State()), routes, processNodes[..i])
      {
        var n := processNodes[i];
        assert n in processNodes;
        assert processNodes[..i + 1][..i] == processNodes[..i];
        ProcessNode(n);
        assert Indexed(routes, n);
        RunRoutes(processRoutesBySrc[processRouteStart[n]..processRouteStart[n] + processRouteLen[n]]);
      }
      assert processNodes[..|processNodes|] == processNodes;
    }

    /** One block: clear, render the sources, then route and process in order. */
    method ProcessGraphBlock(rendered: Signals, ghost routes: seq<Route>)
      requires Built(routes)
      modifies `inputs, `outputs, `contributions, `memory
      ensures State() == RunBlock(cfg, old(State()), rendered, routes, processNodes)
    {
      ClearRuntimeBuffers();
      RenderSourceNodes(rendered);
      RunRoutes(sourceRoutes);
      RunProcessNodes(routes);
    }
  }

  method ScaleBlock(src: Block, gain: real) returns (dst: Block)
    ensures dst == Scaled(src, gain)
  {
    var samples := [];
    for frame := 0 to BUFFER_FRAMES
      invariant |samples| == frame && forall f :: 0 <= f < frame ==> samples[f] == Amplified(src[f], gain)
    {
      samples := samples + [Amplified(src[frame], gain)];
    }
    dst := samples;
  }

  method MixBlock(dst: Block, src: Block, gain: real) returns (mixed: Block)
    ensures mixed == Mixed(dst, src, gain)
  {
    mixed := dst;
    for frame := 0 to BUFFER_FRAMES
      invariant forall f :: 0 <= f < frame ==> mixed[f] == dst[f] + Amplified(src[f], gain)
      invariant forall f :: frame <= f < BUFFER_FRAMES ==> mixed[f] == dst[f]
    {
      mixed := mixed[frame := mixed[frame] + (if gain == 1.0 then src[frame] else Amplified(src[frame], gain))];
    }
  }

  /** What the whole path from a saved graph to a block of audio is asked to achieve. */
  lemma SavedBlockSolves(things: seq<Thing>, effects: map<string, SlotParams>, cfg: Config, saved: seq<Edge>,
                         s: Buffers, rendered: Signals, order: seq<nat>)
    requires s.memory(Silence) == Zero() && cfg.nodes == ConfigOf(things, effects, cfg.gains, cfg.fx).nodes
    requires forall e :: e in saved ==> !(e.src == HELPER && e.dst == HELPER)
    requires Topological(cfg, Compiled(things, Expanded(saved)), order)
    ensures var t := RunBlock(cfg, s, rendered, Compiled(things, Expanded(saved)), order);
            SolvesSaved(things, saved, cfg, rendered, Ins(t), Outs(t))
  {
    var routes := Compiled(things, Expanded(saved));
    ExpandedMixerFree(saved);
    CompiledSources(things, effects, cfg, Expanded(saved));
    BlockSolves(cfg, s, rendered, routes, order);
    var t := RunBlock(cfg, s, rendered, routes, order);
    CompiledSolvesSaved(things, saved, cfg, rendered, Ins(t), Outs(t));
  }

  // ------------------------------------------------------------------------------------------
  // The same in terms of what a user has set up.

  /** Names stand for the first thing that has them. */
  predicate Named(things: seq<Thing>, i: nat) {
    i < |things| && forall k :: 0 <= k < i ==> things[k].id != things[i].id
  }

  /** An enabled cut, or an enabled gain at zero. */
  predicate Mutes(thing: Thing, effects: map<string, SlotParams>) {
    thing.outputs > 0 && thing.id in effects && thing.id != "routing_helper" && effects[thing.id].enabled &&
    match effects[thing.id].effectType
    case Cut => true
    case Gain(level) => level == 0.0
    case _ => false
  }

  /** The things whose signals come from outside the graph. */
  predicate IsInput(thing: Thing, effects: map<string, SlotParams>) {
    thing.outputs > 0 && thing.id !in effects &&
    (thing.inputs == 0 || thing.id == "soundboard_out" || (|thing.id| >= 3 && thing.id[|thing.id| - 3..] == "_in"))
  }

  /**
   What a thing puts out on one channel: what it rendered, its processed input, its input, or
   silence if it has no such channel, is the mixer or mutes.
   */
  ghost predicate Answers(thing: Thing, effects: map<string, SlotParams>, fx: (Port, Block) -> Block,
                          p: Port, rendered: Block, input: Block, output: Block) {
    if IsInput(thing, effects) then output == rendered
    else if thing.id == "routing_helper" || p.channel >= 16 || p.channel >= thing.inputs || p.channel >= thing.outputs ||
            Mutes(thing, effects)
    then forall f :: 0 <= f < 128 ==> output[f] == 0.0
    else if thing.id in effects && effects[thing.id].enabled && effects[thing.id].effectType != Plugin(false)
    then output == fx(p, input)
    else output == input
  }

  /** Each named output hands on its signal times its gain at frame f, and nothing else hands on anything. */
  ghost predicate HandedOn(things: seq<Thing>, gains: nat -> real, outs: Signals, f: nat, values: Values)
    requires f < BUFFER_FRAMES
  {
    && (forall i: nat, c: nat :: Named(things, i) && c < things[i].outputs && c < 16 ==>
          values(things[i].id, c) == outs(Port(i, c))[f] * gains(i))
    && (forall id: string, c: nat ::
          (forall i: nat :: Named(things, i) && things[i].id == id ==> c >= things[i].outputs || c >= 16) ==> values(id, c) == 0.0)
  }

  lemma HandedOnOnce(things: seq<Thing>, cfg: Config, outs: Signals, f: nat, values: Values, id: string, c: nat)
    requires f < BUFFER_FRAMES && HandedOn(things, cfg.gains, outs, f, values)
    ensures values(id, c) == ValueOf(things, cfg, outs, f)(id, c)
  {
    var found := FindThing(things, id);
    forall i: nat | Named(things, i) && things[i].id == id
      ensures found == Some(i)
    {
    }
    if found.Some? {
      var i := found.value;
      assert Named(things, i) && things[i].id == id;
      if c < things[i].outputs && c < 16 {
        assert values(things[i].id, c) == outs(Port(i, c))[f] * cfg.gains(i);
        assert Endpoint(things, id, c, true) == Some(Port(i, c));
      }
    }
    if found.None? || c >= things[found.value].outputs || c >= 16 {
      assert Endpoint(things, id, c, true) == None;
      assert forall i: nat :: Named(things, i) && things[i].id == id ==> c >= things[i].outputs || c >= 16;
    }
  }

  lemma {:induction false} EdgeSumSame(edges: seq<Edge>, dst: string, c: nat, v: Values, w: Values)
    requires forall id: string, d: nat :: v(id, d) == w(id, d)
    ensures EdgeSum(edges, dst, c, v) == EdgeSum(edges, dst, c, w)
  {
    if edges != [] {
      EdgeSumSame(edges[..|edges| - 1], dst, c, v, w);
    }
  }

  lemma {:induction false} SavedSumSame(edges: seq<Edge>, all: seq<Edge>, dst: string, c: nat, v: Values, w: Values)
    requires forall id: string, d: nat :: v(id, d) == w(id, d)
    ensures SavedSum(edges, all, dst, c, v) == SavedSum(edges, all, dst, c, w)
  {
    if edges != [] {
      SavedSumSame(edges[..|edges| - 1], all, dst, c, v, w);
      EdgeSumSame(all, HELPER, edges[|edges| - 1].srcChannel, v, w);
    }
  }

  /** Input c of thing i holds, at frame f, the sum of what the saved edges bring there. */
  ghost predicate Heard(things: seq<Thing>, saved: seq<Edge>, gains: nat -> real, ins: Signals, outs: Signals, i: nat, c: nat, f: nat)
    requires i < |things| && f < BUFFER_FRAMES
  {
    forall values: Values :: HandedOn(things, gains, outs, f, values) ==>
      ins(Port(i, c))[f] == SavedSum(saved, saved, things[i].id, c, values)
  }

  lemma SolvedIsHeard(things: seq<Thing>, saved: seq<Edge>, effects: map<string, SlotParams>, cfg: Config,
                      rendered: Signals, ins: Signals, outs: Signals, i: nat, c: nat, f: nat)
    requires SolvesSaved(things, saved, cfg, rendered, ins, outs) && cfg.nodes == ConfigOf(things, effects, cfg.gains, cfg.fx).nodes
    requires Named(things, i) && c < things[i].inputs && c < 16 && f < BUFFER_FRAMES
    requires things[i].id != "routing_helper" && !Mutes(things[i], effects)
    ensures Heard(things, saved, cfg.gains, ins, outs, i, c, f)
  {
    hide SavedSum, ValueOf;
    assert FindThing(things, things[i].id) == Some(i);
    assert Endpoint(things, things[i].id, Port(i, c).channel, false) == Some(Port(i, c));
    forall values: Values | HandedOn(things, cfg.gains, outs, f, values)
      ensures ins(Port(i, c))[f] == SavedSum(saved, saved, things[i].id, c, values)
    {
      forall id: string, d: nat ensures values(id, d) == ValueOf(things, cfg, outs, f)(id, d) {
        HandedOnOnce(things, cfg, outs, f, values, id, d);
      }
      SavedSumSame(saved, saved, things[i].id, c, values, ValueOf(things, cfg, outs, f));
    }
  }

  lemma SolvedAnswers(things: seq<Thing>, saved: seq<Edge>, effects: map<string, SlotParams>, cfg: Config,
                      rendered: Signals, ins: Signals, outs: Signals, p: Port)
    requires SolvesSaved(things, saved, cfg, rendered, ins, outs) && cfg.nodes == ConfigOf(things, effects, cfg.gains, cfg.fx).nodes
    requires p.node < |things|
    ensures Answers(things[p.node], effects, cfg.fx, p, rendered(p), ins(p), outs(p))
  {
    assert outs(p) == NodeOutput(cfg, p, rendered, ins);
    assert cfg.nodes[p.node] == NodeOf(things[p.node], effects);
  }

  /** Every frame of every input that a user can see is right, and so is every output. */
  ghost predicate PlaysSaved(things: seq<Thing>, saved: seq<Edge>, effects: map<string, SlotParams>, gains: nat -> real,
                             fx: (Port, Block) -> Block, rendered: Signals, ins: Signals, outs: Signals) {
    && (forall p: Port :: p.node < |things| ==> Answers(things[p.node], effects, fx, p, rendered(p), ins(p), outs(p)))
    && (forall i: nat, c: nat, f: nat ::
          Named(things, i) && c < things[i].inputs && c < 16 && f < 128 && things[i].id != "routing_helper" && !Mutes(things[i], effects) ==>
          Heard(things, saved, gains, ins, outs, i, c, f))
  }

  lemma SolvedPlays(things: seq<Thing>, saved: seq<Edge>, effects: map<string, SlotParams>, cfg: Config,
                    rendered: Signals, ins: Signals, outs: Signals)
    requires SolvesSaved(things, saved, cfg, rendered, ins, outs) && cfg.nodes == ConfigOf(things, effects, cfg.gains, cfg.fx).nodes
    ensures PlaysSaved(things, saved, effects, cfg.gains, cfg.fx, rendered, ins, outs)
  {
    hide SolvesSaved, Answers, Heard, Mutes, ConfigOf;
    forall p: Port | p.node < |things|
      ensures Answers(things[p.node], effects, cfg.fx, p, rendered(p), ins(p), outs(p))
    {
      SolvedAnswers(things, saved, effects, cfg, rendered, ins, outs, p);
    }
    forall i: nat, c: nat, f: nat |
      Named(things, i) && c < things[i].inputs && c < 16 && f < 128 && things[i].id != "routing_helper" && !Mutes(things[i], effects)
      ensures Heard(things, saved, cfg.gains, ins, outs, i, c, f)
    {
      SolvedIsHeard(things, saved, effects, cfg, rendered, ins, outs, i, c, f);
    }
  }

  /**
   The whole path from a saved graph to one block of audio. If the expansion fits the edge table,
   no mixer feeds a mixer and the processing nodes form no cycle, every input holds exactly the
   gain-weighted sum the saved graph denotes, and every output what its thing makes of that.
   */
  method RunSavedGraph(rt: RuntimeGraph, graph: SavedGraph, things: seq<Thing>, effects: map<string, SlotParams>,
                       gains: nat -> real, fx: (Port, Block) -> Block, rendered: Signals)
    requires rt.memory(Silence) == Zero()
    modifies rt, graph
    ensures var saved, cfg := old(graph.edges), ConfigOf(things, effects, gains, fx);
            && |Expanded(saved)| <= 128
            && (forall e :: e in saved ==> !(e.src == "routing_helper" && e.dst == "routing_helper"))
            && !Looped(cfg, Compiled(things, Expanded(saved)))
            ==> PlaysSaved(things, saved, effects, gains, fx, rendered, Ins(rt.State()), Outs(rt.State()))
    ensures rt.memory(Silence) == Zero()
  {
    ghost var saved := graph.edges;
    var skipped := graph.ExpandRoutingHelper();
    rt.Rebuild(things, graph.edges, effects, gains, fx);
    ghost var cfg, routes, s := rt.cfg, Compiled(things, graph.edges), rt.State();
    rt.ProcessGraphBlock(rendered, routes);
    RunBlockKeepsSilence(cfg, s, rendered, routes, rt.processNodes);
    if |Expanded(saved)| <= MAX_EDGES && (forall e :: e in saved ==> !(e.src == HELPER && e.dst == HELPER)) && !Looped(cfg, routes) {
      SavedBlockSolves(things, effects, cfg, saved, s, rendered, rt.processNodes);
      SolvedPlays(things, saved, effects, cfg, rendered, Ins(rt.State()), Outs(rt.State()));
    }
  }
}
