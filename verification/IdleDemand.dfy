/**
 The demand analysis that decides when audio may sleep. An output channel is demanded when a chain
 of audible routes leads from it to a sink; the engine computes this as a fixed point. Sources that
 nobody demands may play on while the engine sleeps, because they cannot reach any sink.
 */
module IdleDemand {
  import opened AudioGraph
  import opened GraphMixer

  /** An input channel of a process node passes demand on to the same output channel. */
  ghost predicate PassesDemand(cfg: Config, processNodes: seq<nat>, p: Port) {
    p.node in processNodes && !cfg.Blocks(p.node) && p.channel < cfg.InputChannels(p.node)
  }

  ghost predicate SinkInput(cfg: Config, sinkNodes: seq<nat>, p: Port) {
    p.node in sinkNodes && p.channel < cfg.InputChannels(p.node)
  }

  /** Consecutive audible routes through unblocked process nodes, the last one into a sink. */
  ghost predicate Chain(cfg: Config, routes: set<Route>, processNodes: seq<nat>, sinkNodes: seq<nat>, chain: seq<Route>) {
    && chain != []
    && (forall i :: 0 <= i < |chain| ==> chain[i] in routes && cfg.gains(chain[i].src.node) != 0.0)
    && (forall i :: 0 <= i < |chain| - 1 ==>
          chain[i].dst == chain[i + 1].src && PassesDemand(cfg, processNodes, chain[i].dst))
    && SinkInput(cfg, sinkNodes, chain[|chain| - 1].dst)
  }

  ghost predicate Demanded(cfg: Config, routes: set<Route>, processNodes: seq<nat>, sinkNodes: seq<nat>, p: Port) {
    exists chain: seq<Route> :: Chain(cfg, routes, processNodes, sinkNodes, chain) && chain[0].src == p
  }

  /** Demand on an input: it is a sink's, or it belongs to a process node whose output is demanded. */
  ghost predicate DemandedInput(cfg: Config, routes: set<Route>, processNodes: seq<nat>, sinkNodes: seq<nat>, p: Port) {
    SinkInput(cfg, sinkNodes, p) ||
    (PassesDemand(cfg, processNodes, p) && Demanded(cfg, routes, processNodes, sinkNodes, p))
  }

  lemma DemandExtends(cfg: Config, routes: set<Route>, processNodes: seq<nat>, sinkNodes: seq<nat>, r: Route)
    requires r in routes && cfg.gains(r.src.node) != 0.0
    requires DemandedInput(cfg, routes, processNodes, sinkNodes, r.dst)
    ensures Demanded(cfg, routes, processNodes, sinkNodes, r.src)
  {
    if SinkInput(cfg, sinkNodes, r.dst) {
      assert Chain(cfg, routes, processNodes, sinkNodes, [r]);
    } else {
      var chain: seq<Route> :| Chain(cfg, routes, processNodes, sinkNodes, chain) && chain[0].src == r.dst;
      var longer := [r] + chain;
      forall i | 0 <= i < |longer| - 1
        ensures longer[i].dst == longer[i + 1].src && PassesDemand(cfg, processNodes, longer[i].dst)
      {
        if i > 0 {
          assert longer[i] == chain[i - 1] && longer[i + 1] == chain[i];
        }
      }
      assert Chain(cfg, routes, processNodes, sinkNodes, longer);
    }
  }

  ghost predicate Closed(cfg: Config, routes: set<Route>, processNodes: seq<nat>, sinkNodes: seq<nat>,
                         outs: set<Port>, ins: set<Port>) {
    && (forall p :: SinkInput(cfg, sinkNodes, p) ==> p in ins)
    && (forall r :: r in routes && r.dst in ins && cfg.gains(r.src.node) != 0.0 ==> r.src in outs)
    && (forall p :: p in outs && PassesDemand(cfg, processNodes, p) ==> p in ins)
  }

  /** Any closed set contains every chain, so the fixed point reached is the least one. */
  lemma {:induction false} ClosedCoversChain(cfg: Config, routes: set<Route>, processNodes: seq<nat>, sinkNodes: seq<nat>,
                                             outs: set<Port>, ins: set<Port>, chain: seq<Route>)
    requires Closed(cfg, routes, processNodes, sinkNodes, outs, ins)
    requires Chain(cfg, routes, processNodes, sinkNodes, chain)
    ensures chain[0].src in outs
  {
    if |chain| > 1 {
      var rest := chain[1..];
      forall i | 0 <= i < |rest| - 1
        ensures rest[i].dst == rest[i + 1].src && PassesDemand(cfg, processNodes, rest[i].dst)
      {
        assert rest[i] == chain[i + 1] && rest[i + 1] == chain[i + 2];
      }
      assert rest[|rest| - 1] == chain[|chain| - 1];
      ClosedCoversChain(cfg, routes, processNodes, sinkNodes, outs, ins, rest);
      assert chain[0].dst == chain[1].src;
    }
  }

  /** Everything found so far is really demanded. */
  ghost predicate Sound(cfg: Config, routes: set<Route>, processNodes: seq<nat>, sinkNodes: seq<nat>,
                        outs: set<Port>, ins: set<Port>) {
    && (forall p :: p in outs ==> Demanded(cfg, routes, processNodes, sinkNodes, p) && exists r :: r in routes && r.src == p)
    && (forall p :: p in ins ==> DemandedInput(cfg, routes, processNodes, sinkNodes, p))
    && (forall p :: p in ins && !SinkInput(cfg, sinkNodes, p) ==> p in outs)
    && (forall p :: SinkInput(cfg, sinkNodes, p) ==> p in ins)
  }

  function Mask(cfg: Config, n: nat): (m: set<Port>)
    ensures forall p :: p in m <==> p.node == n && p.channel < cfg.InputChannels(n)
  {
    set c | 0 <= c < cfg.InputChannels(n) :: Port(n, c)
  }

  ghost function RouteSet(routes: seq<Route>): set<Route> {
    set r | r in routes
  }

  /** One sweep over a list of routes; `changed` reports whether any output became demanded. */
  method PropagateRoutes(cfg: Config, list: seq<Route>, ghost routes: set<Route>, ghost processNodes: seq<nat>,
                         ghost sinkNodes: seq<nat>, ins: set<Port>, outs0: set<Port>, changed0: bool)
    returns (outs: set<Port>, changed: bool)
    requires RouteSet(list) <= routes && Sound(cfg, routes, processNodes, sinkNodes, outs0, ins)
    ensures Sound(cfg, routes, processNodes, sinkNodes, outs, ins)
    ensures outs0 <= outs && changed == (changed0 || outs != outs0)
    ensures forall r :: r in list && r.dst in ins && cfg.gains(r.src.node) != 0.0 ==> r.src in outs
  {
    outs, changed := outs0, changed0;
    for i := 0 to |list|
      invariant Sound(cfg, routes, processNodes, sinkNodes, outs, ins)
      invariant outs0 <= outs && changed == (changed0 || outs != outs0)
      invariant forall k :: 0 <= k < i && list[k].dst in ins && cfg.gains(list[k].src.node) != 0.0 ==> list[k].src in outs
    {
      var route := list[i];
      if route.dst in ins && cfg.gains(route.src.node) != 0.0 {
        assert route in routes;
        DemandExtends(cfg, routes, processNodes, sinkNodes, route);
        var previous := outs;
        outs := outs + {route.src};
        changed := changed || previous != outs;
      }
    }
  }

  method PropagateNodes(cfg: Config, ghost routes: set<Route>, processNodes: seq<nat>, ghost sinkNodes: seq<nat>,
                        outs: set<Port>, ins0: set<Port>, changed0: bool)
    returns (ins: set<Port>, changed: bool)
    requires Sound(cfg, routes, processNodes, sinkNodes, outs, ins0)
    ensures Sound(cfg, routes, processNodes, sinkNodes, outs, ins)
    ensures ins0 <= ins && changed == (changed0 || ins != ins0)
    ensures forall p :: p in outs && PassesDemand(cfg, processNodes, p) ==> p in ins
  {
    ins, changed := ins0, changed0;
    for i := 0 to |processNodes|
      invariant Sound(cfg, routes, processNodes, sinkNodes, outs, ins)
      invariant ins0 <= ins && changed == (changed0 || ins != ins0)
      invariant forall p :: p in outs && PassesDemand(cfg, processNodes[..i], p) ==> p in ins
    {
      var node := processNodes[i];
      if !cfg.Blocks(node) {
        var previous := ins;
        ins := ins + outs * Mask(cfg, node);
        changed := changed || previous != ins;
      }
      assert forall p :: PassesDemand(cfg, processNodes[..i + 1], p) ==> PassesDemand(cfg, processNodes[..i], p) || p.node == node;
    }
    assert processNodes[..|processNodes|] == processNodes;
  }

  /** The fixed point: exactly the output channels with a chain to a sink, and their inputs. */
  method BuildIdleDemand(cfg: Config, sourceRoutes: seq<Route>, processRoutes: seq<Route>,
                         processNodes: seq<nat>, sinkNodes: seq<nat>)
    returns (outs: set<Port>, ins: set<Port>)
    ensures var routes := RouteSet(sourceRoutes + processRoutes);
            && (forall p :: p in outs <==> Demanded(cfg, routes, processNodes, sinkNodes, p))
            && (forall p :: p in ins <==> DemandedInput(cfg, routes, processNodes, sinkNodes, p))
            && Closed(cfg, routes, processNodes, sinkNodes, outs, ins)
  {
    ghost var routes := RouteSet(sourceRoutes + processRoutes);
    ghost var universe := set r | r in routes :: r.src;
    outs, ins := {}, {};
    for i := 0 to |sinkNodes|
      invariant forall p :: p in ins <==> SinkInput(cfg, sinkNodes[..i], p)
    {
      ins := ins + Mask(cfg, sinkNodes[i]);
    }
    assert sinkNodes[..|sinkNodes|] == sinkNodes;
    ghost var sinkInputs := ins;
    var changed := true;
    while changed
      invariant Sound(cfg, routes, processNodes, sinkNodes, outs, ins)
      invariant !changed ==> Closed(cfg, routes, processNodes, sinkNodes, outs, ins)
      decreases universe - outs, universe + sinkInputs - ins, changed
    {
      ghost var outs0, ins0 := outs, ins;
      changed := false;
      outs, changed := PropagateRoutes(cfg, sourceRoutes, routes, processNodes, sinkNodes, ins, outs, changed);
      outs, changed := PropagateRoutes(cfg, processRoutes, routes, processNodes, sinkNodes, ins, outs, changed);
      ins, changed := PropagateNodes(cfg, routes, processNodes, sinkNodes, outs, ins, changed);
      assert outs <= universe;
      assert ins <= universe + sinkInputs;
      if outs != outs0 {
        var p :| p in outs && p !in outs0;
        assert p in universe - outs0;
      } else if ins != ins0 {
        var p :| p in ins && p !in ins0;
        assert p in universe + sinkInputs - ins0;
      }
    }
    forall p | Demanded(cfg, routes, processNodes, sinkNodes, p)
      ensures p in outs
    {
      var chain: seq<Route> :| Chain(cfg, routes, processNodes, sinkNodes, chain) && chain[0].src == p;
      ClosedCoversChain(cfg, routes, processNodes, sinkNodes, outs, ins, chain);
    }
  }

  // ------------------------------------------------------------------------------------------
  // Why the analysis is safe: two runs that differ only in undemanded source channels agree on
  // every sink input, whatever the order of the nodes and whether or not the routes form cycles.

  /** Buffers that demanded signals are read from. */
  ghost predicate Heard(outs: set<Port>, ins: set<Port>, b: Buf) {
    b.Silence? || (b.InStore? && b.port in ins) || (b.OutStore? && b.port in outs)
  }

  /** s and t point to the same buffers, and every demanded port reads the same content in both. */
  ghost predicate Alike(outs: set<Port>, ins: set<Port>, s: Buffers, t: Buffers) {
    && (forall p :: s.inputs(p) == t.inputs(p) && s.outputs(p) == t.outputs(p) && s.contributions(p) == t.contributions(p))
    && (forall p :: p in ins ==> Heard(outs, ins, s.inputs(p)) && s.memory(s.inputs(p)) == t.memory(s.inputs(p)))
    && s.memory(Silence) == t.memory(Silence)
    && (forall p :: p in outs ==> Heard(outs, ins, s.outputs(p)) && s.memory(s.outputs(p)) == t.memory(s.outputs(p)))
  }

  /** The same graph, whose effects do the same to demanded channels. */
  ghost predicate AlikeEffects(ins: set<Port>, cfg: Config, other: Config) {
    other == cfg.(fx := other.fx) && forall p, x :: p in ins ==> cfg.fx(p, x) == other.fx(p, x)
  }

  lemma RoutedAlike(cfg: Config, other: Config, outs: set<Port>, ins: set<Port>, s: Buffers, t: Buffers, r: Route)
    requires Alike(outs, ins, s, t) && AlikeEffects(ins, cfg, other)
    requires r.dst in ins && cfg.gains(r.src.node) != 0.0 ==> r.src in outs
    ensures Alike(outs, ins, Routed(cfg, s, r), Routed(other, t, r))
  {
  }

  lemma WrittenAlike(outs: set<Port>, ins: set<Port>, s: Buffers, t: Buffers, p: Port, x: Block, y: Block)
    requires Alike(outs, ins, s, t) && (p in outs ==> x == y)
    ensures Alike(outs, ins, s.(memory := Set<Buf, Block>(s.memory, OutStore(p), x)),
                  t.(memory := Set<Buf, Block>(t.memory, OutStore(p), y)))
  {
  }

  lemma PointedAlike(outs: set<Port>, ins: set<Port>, s: Buffers, t: Buffers, p: Port, b: Buf)
    requires Alike(outs, ins, s, t) && (p in outs ==> Heard(outs, ins, b) && s.memory(b) == t.memory(b))
    ensures Alike(outs, ins, s.(outputs := Set(s.outputs, p, b)), t.(outputs := Set(t.outputs, p, b)))
  {
  }

  lemma ProcessedChannelAlike(cfg: Config, other: Config, outs: set<Port>, ins: set<Port>, s: Buffers, t: Buffers, p: Port)
    requires Alike(outs, ins, s, t) && AlikeEffects(ins, cfg, other)
    requires p in outs && !cfg.Blocks(p.node) && p.channel < cfg.InputChannels(p.node) ==> p in ins
    ensures Alike(outs, ins, ProcessedChannel(cfg, s, p), ProcessedChannel(other, t, p))
  {
    if cfg.Blocks(p.node) || p.channel >= cfg.Carried(p.node) {
      PointedAlike(outs, ins, s, t, p, Silence);
    } else if cfg.Runs(p.node) {
      var x, y := cfg.fx(p, s.memory(s.inputs(p))), other.fx(p, t.memory(t.inputs(p)));
      WrittenAlike(outs, ins, s, t, p, x, y);
      PointedAlike(outs, ins, s.(memory := Set<Buf, Block>(s.memory, OutStore(p), x)),
                   t.(memory := Set<Buf, Block>(t.memory, OutStore(p), y)), p, OutStore(p));
    } else {
      PointedAlike(outs, ins, s, t, p, s.inputs(p));
    }
  }

  lemma {:induction false} ProcessedAlike(cfg: Config, other: Config, outs: set<Port>, ins: set<Port>, s: Buffers, t: Buffers,
                                          n: nat, k: nat)
    requires Alike(outs, ins, s, t) && AlikeEffects(ins, cfg, other)
    requires forall p: Port :: p in outs && p.node == n && !cfg.Blocks(n) && p.channel < cfg.InputChannels(n) ==> p in ins
    ensures Alike(outs, ins, ProcessedUpTo(cfg, s, n, k), ProcessedUpTo(other, t, n, k))
  {
    if k > 0 {
      ProcessedAlike(cfg, other, outs, ins, s, t, n, k - 1);
      ProcessedChannelAlike(cfg, other, outs, ins, ProcessedUpTo(cfg, s, n, k - 1), ProcessedUpTo(other, t, n, k - 1), Port(n, k - 1));
    }
  }

  lemma {:induction false} RoutedAllAlike(cfg: Config, other: Config, outs: set<Port>, ins: set<Port>, s: Buffers, t: Buffers,
                                          list: seq<Route>)
    requires Alike(outs, ins, s, t) && AlikeEffects(ins, cfg, other)
    requires forall r :: r in list && r.dst in ins && cfg.gains(r.src.node) != 0.0 ==> r.src in outs
    ensures Alike(outs, ins, RoutedAll(cfg, s, list), RoutedAll(other, t, list))
  {
    if list != [] {
      var init := list[..|list| - 1];
      RoutedAllAlike(cfg, other, outs, ins, s, t, init);
      RoutedAlike(cfg, other, outs, ins, RoutedAll(cfg, s, init), RoutedAll(other, t, init), list[|list| - 1]);
    }
  }

  lemma {:induction false} ProcessedAllAlike(cfg: Config, other: Config, outs: set<Port>, ins: set<Port>, s: Buffers, t: Buffers,
                                             routes: seq<Route>, processNodes: seq<nat>, sinkNodes: seq<nat>, order: seq<nat>)
    requires Alike(outs, ins, s, t) && AlikeEffects(ins, cfg, other)
    requires Closed(cfg, RouteSet(routes), processNodes, sinkNodes, outs, ins)
    requires forall n :: n in order ==> n in processNodes
    ensures Alike(outs, ins, ProcessedAll(cfg, s, routes, order), ProcessedAll(other, t, routes, order))
  {
    if order != [] {
      var init, n := order[..|order| - 1], order[|order| - 1];
      ProcessedAllAlike(cfg, other, outs, ins, s, t, routes, processNodes, sinkNodes, init);
      var s', t' := ProcessedAll(cfg, s, routes, init), ProcessedAll(other, t, routes, init);
      ProcessedAlike(cfg, other, outs, ins, s', t', n, cfg.OutputChannels(n));
      forall r | r in RoutesFrom(routes, {n}) && r.dst in ins && cfg.gains(r.src.node) != 0.0
        ensures r.src in outs
      {
        assert r in RouteSet(routes);
      }
      RoutedAllAlike(cfg, other, outs, ins, Processed(cfg, s', n), Processed(other, t', n), RoutesFrom(routes, {n}));
    }
  }

  lemma RenderedAlike(cfg: Config, other: Config, s: Buffers, t: Buffers, a: Signals, b: Signals, outs: set<Port>, ins: set<Port>)
    requires AlikeEffects(ins, cfg, other) && s.memory(Silence) == t.memory(Silence)
    requires forall p: Port :: cfg.IsSource(p.node) && p in outs ==> a(p) == b(p)
    ensures Alike(outs, ins, Rendered(cfg, Cleared(cfg, s), a), Rendered(other, Cleared(other, t), b))
  {
  }

  /** The state of a block after its sources have been rendered and routed. */
  function Fed(cfg: Config, s: Buffers, rendered: Signals, routes: seq<Route>): Buffers {
    RoutedAll(cfg, Rendered(cfg, Cleared(cfg, s), rendered), RoutesFrom(routes, Sources(cfg)))
  }

  /** One block: what is left over from earlier blocks does not matter. */
  lemma BlockAlike(cfg: Config, other: Config, s: Buffers, t: Buffers, a: Signals, b: Signals, routes: seq<Route>,
                   processNodes: seq<nat>, sinkNodes: seq<nat>, order: seq<nat>, outs: set<Port>, ins: set<Port>)
    requires AlikeEffects(ins, cfg, other) && s.memory(Silence) == t.memory(Silence)
    requires Closed(cfg, RouteSet(routes), processNodes, sinkNodes, outs, ins) && forall n :: n in order ==> n in processNodes
    requires forall p: Port :: cfg.IsSource(p.node) && p in outs ==> a(p) == b(p)
    ensures Alike(outs, ins, Fed(cfg, s, a, routes), Fed(other, t, b, routes))
    ensures Alike(outs, ins, RunBlock(cfg, s, a, routes, order), RunBlock(other, t, b, routes, order))
  {
    var sources := RoutesFrom(routes, Sources(cfg));
    var s', t' := Rendered(cfg, Cleared(cfg, s), a), Rendered(other, Cleared(other, t), b);
    RenderedAlike(cfg, other, s, t, a, b, outs, ins);
    forall r | r in sources && r.dst in ins && cfg.gains(r.src.node) != 0.0
      ensures r.src in outs
    {
      assert r in RouteSet(routes);
    }
    assert Sources(other) == Sources(cfg);
    RoutedAllAlike(cfg, other, outs, ins, s', t', sources);
    ProcessedAllAlike(cfg, other, outs, ins, RoutedAll(cfg, s', sources), RoutedAll(other, t', sources), routes, processNodes, sinkNodes, order);
  }

  // ------------------------------------------------------------------------------------------
  // Many blocks. What an effect does to a channel may depend on everything the channel has got so far.

  type Memory = Port -> seq<Block>

  type Effects = (Port, seq<Block>, Block) -> Block

  datatype Engine = Engine(buffers: Buffers, memory: Memory)

  function WithMemory(cfg: Config, fx: Effects, memory: Memory): Config {
    cfg.(fx := (p, x) => fx(p, memory(p), x))
  }

  /** What an input channel of a node holds when its turn comes while the node is processed. */
  ghost function InputAt(cfg: Config, s: Buffers, p: Port): Block {
    var t := ProcessedUpTo(cfg, s, p.node, p.channel);
    t.memory(t.inputs(p))
  }

  /** Every channel of every node that is processed remembers the input it was processed with. */
  ghost function Remembered(cfg: Config, s: Buffers, routes: seq<Route>, order: seq<nat>, memory: Memory): Memory {
    if order == [] then memory
    else
      var init, n := order[..|order| - 1], order[|order| - 1];
      var before, t := Remembered(cfg, s, routes, init, memory), ProcessedAll(cfg, s, routes, init);
      (p: Port) => if p.node == n then before(p) + [InputAt(cfg, t, p)] else before(p)
  }

  /** One block, and what each channel has been processed with in it. */
  ghost function PlayBlock(cfg: Config, fx: Effects, e: Engine, rendered: Signals, routes: seq<Route>, order: seq<nat>): Engine {
    var now := WithMemory(cfg, fx, e.memory);
    Engine(RunBlock(now, e.buffers, rendered, routes, order),
           Remembered(now, Fed(now, e.buffers, rendered, routes), routes, order, e.memory))
  }

  ghost function PlayAll(cfg: Config, fx: Effects, e: Engine, blocks: seq<Signals>, routes: seq<Route>, order: seq<nat>): Engine {
    if blocks == [] then e
    else PlayBlock(cfg, fx, PlayAll(cfg, fx, e, blocks[..|blocks| - 1], routes, order), blocks[|blocks| - 1], routes, order)
  }

  /** The two runs agree on the memory of every demanded channel. */
  ghost predicate AlikeEngines(ins: set<Port>, e: Engine, f: Engine) {
    e.buffers.memory(Silence) == f.buffers.memory(Silence) && forall p :: p in ins ==> e.memory(p) == f.memory(p)
  }

  /** Demanded channels remember the same. */
  lemma {:induction false} RememberedAlike(cfg: Config, other: Config, outs: set<Port>, ins: set<Port>, s: Buffers, t: Buffers,
                                           routes: seq<Route>, processNodes: seq<nat>, sinkNodes: seq<nat>, order: seq<nat>,
                                           a: Memory, b: Memory)
    requires Alike(outs, ins, s, t) && AlikeEffects(ins, cfg, other) && forall p :: p in ins ==> a(p) == b(p)
    requires Closed(cfg, RouteSet(routes), processNodes, sinkNodes, outs, ins) && forall n :: n in order ==> n in processNodes
    ensures forall p :: p in ins ==> Remembered(cfg, s, routes, order, a)(p) == Remembered(other, t, routes, order, b)(p)
  {
    if order != [] {
      var init, n := order[..|order| - 1], order[|order| - 1];
      RememberedAlike(cfg, other, outs, ins, s, t, routes, processNodes, sinkNodes, init, a, b);
      ProcessedAllAlike(cfg, other, outs, ins, s, t, routes, processNodes, sinkNodes, init);
      var s', t' := ProcessedAll(cfg, s, routes, init), ProcessedAll(other, t, routes, init);
      forall p | p in ins
        ensures Remembered(cfg, s, routes, order, a)(p) == Remembered(other, t, routes, order, b)(p)
      {
        ProcessedAlike(cfg, other, outs, ins, s', t', n, p.channel);
      }
    }
  }

  lemma StaysClosed(cfg: Config, fx: Effects, memory: Memory, routes: seq<Route>, processNodes: seq<nat>, sinkNodes: seq<nat>,
                    outs: set<Port>, ins: set<Port>)
    requires Closed(cfg, RouteSet(routes), processNodes, sinkNodes, outs, ins)
    ensures Closed(WithMemory(cfg, fx, memory), RouteSet(routes), processNodes, sinkNodes, outs, ins)
  {
    hide RouteSet;
  }

  lemma {:induction false} AllAlike(cfg: Config, fx: Effects, e: Engine, a: seq<Signals>, b: seq<Signals>, routes: seq<Route>,
                                    processNodes: seq<nat>, sinkNodes: seq<nat>, order: seq<nat>, outs: set<Port>, ins: set<Port>)
    requires Closed(cfg, RouteSet(routes), processNodes, sinkNodes, outs, ins) && forall n :: n in order ==> n in processNodes
    requires |a| == |b| && forall k, p: Port :: 0 <= k < |a| && cfg.IsSource(p.node) && p in outs ==> a[k](p) == b[k](p)
    ensures var s, t := PlayAll(cfg, fx, e, a, routes, order), PlayAll(cfg, fx, e, b, routes, order);
            AlikeEngines(ins, s, t) && (a != [] ==> Alike(outs, ins, s.buffers, t.buffers))
  {
    hide Closed, RouteSet, Remembered, Alike, Fed, RunBlock;
    if a != [] {
      var n := |a| - 1;
      AllAlike(cfg, fx, e, a[..n], b[..n], routes, processNodes, sinkNodes, order, outs, ins);
      var s, t := PlayAll(cfg, fx, e, a[..n], routes, order), PlayAll(cfg, fx, e, b[..n], routes, order);
      StaysClosed(cfg, fx, s.memory, routes, processNodes, sinkNodes, outs, ins);
      BlockAlike(WithMemory(cfg, fx, s.memory), WithMemory(cfg, fx, t.memory), s.buffers, t.buffers, a[n], b[n],
                 routes, processNodes, sinkNodes, order, outs, ins);
      var first, second := WithMemory(cfg, fx, s.memory), WithMemory(cfg, fx, t.memory);
      RememberedAlike(first, second, outs, ins, Fed(first, s.buffers, a[n], routes), Fed(second, t.buffers, b[n], routes),
                      routes, processNodes, sinkNodes, order, s.memory, t.memory);
    }
  }

  /**
   As long as the controls stay the same, undemanded source channels are inaudible: after any number
   of blocks no sink input depends on what they have rendered in any of them, even if effects remember.
   */
  lemma UndemandedInaudible(cfg: Config, fx: Effects, e: Engine, a: seq<Signals>, b: seq<Signals>, routes: seq<Route>,
                            processNodes: seq<nat>, sinkNodes: seq<nat>, order: seq<nat>, sink: Port)
    requires |a| == |b| > 0 && (forall n :: n in order ==> n in processNodes) && SinkInput(cfg, sinkNodes, sink)
    requires forall k, p: Port :: 0 <= k < |a| && cfg.IsSource(p.node) && Demanded(cfg, RouteSet(routes), processNodes, sinkNodes, p) ==>
               a[k](p) == b[k](p)
    ensures Ins(PlayAll(cfg, fx, e, a, routes, order).buffers)(sink) == Ins(PlayAll(cfg, fx, e, b, routes, order).buffers)(sink)
  {
    var outs, ins := LeastDemand(cfg, routes, processNodes, sinkNodes);
    AllAlike(cfg, fx, e, a, b, routes, processNodes, sinkNodes, order, outs, ins);
  }

  lemma LeastDemand(cfg: Config, routes: seq<Route>, processNodes: seq<nat>, sinkNodes: seq<nat>)
    returns (outs: set<Port>, ins: set<Port>)
    ensures Closed(cfg, RouteSet(routes), processNodes, sinkNodes, outs, ins)
    ensures forall p :: p in outs ==> Demanded(cfg, RouteSet(routes), processNodes, sinkNodes, p)
  {
    var rs := RouteSet(routes);
    outs := set r | r in rs && Demanded(cfg, rs, processNodes, sinkNodes, r.src) :: r.src;
    ins := {};
    for i := 0 to |sinkNodes|
      invariant forall p :: p in ins <==> SinkInput(cfg, sinkNodes[..i], p)
    {
      ins := ins + Mask(cfg, sinkNodes[i]);
    }
    assert sinkNodes[..|sinkNodes|] == sinkNodes;
    ins := ins + set p | p in outs && PassesDemand(cfg, processNodes, p);
    forall r | r in rs && r.dst in ins && cfg.gains(r.src.node) != 0.0
      ensures r.src in outs
    {
      DemandExtends(cfg, rs, processNodes, sinkNodes, r);
    }
  }
}
