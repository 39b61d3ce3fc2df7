/** Types and sums shared by the modules of the audio graph engine. */
module AudioGraph {

  const MAX_CHANNELS: nat := 16
  const MAX_EDGES: nat := 128
  const BUFFER_FRAMES: nat := 128

  /** One channel of one node. Whether it is an input or an output follows from its use. */
  datatype Port = Port(node: nat, channel: nat)

  datatype Route = Route(src: Port, dst: Port)

  datatype EffectType = Cut | Gain(level: real) | Plugin(hosted: bool) | Dsp

  /** The mixer is compiled away and never processed. */
  datatype Kind = Sink | Source | Pass | Mixer | Effect(enabled: bool, effectType: EffectType)

  datatype Node = Node(kind: Kind, inputs: nat, outputs: nat)

  /** The samples of one buffer over one block. */
  type Block = b: seq<real> | |b| == BUFFER_FRAMES witness seq(BUFFER_FRAMES, _ => 0.0)

  /** A signal for every port. */
  type Signals = Port -> Block

  function Zero(): (b: Block)
    ensures forall f :: 0 <= f < BUFFER_FRAMES ==> b[f] == 0.0
  {
    seq(BUFFER_FRAMES, _ => 0.0)
  }

  /** What one block of processing depends on: the nodes, their output gains and the effects. */
  datatype Config = Config(nodes: seq<Node>, gains: nat -> real, fx: (Port, Block) -> Block)
  {
    function KindOf(n: nat): Kind {
      if n < |nodes| then nodes[n].kind else Sink
    }

    predicate IsSource(n: nat) {
      KindOf(n).Source?
    }

    predicate IsProcess(n: nat) {
      KindOf(n).Pass? || KindOf(n).Effect?
    }

    /** An enabled cut, or an enabled gain at zero, drops everything that is routed to it. */
    predicate Blocks(n: nat) {
      var k := KindOf(n);
      k.Effect? && k.enabled && (k.effectType.Cut? || (k.effectType.Gain? && k.effectType.level == 0.0))
    }

    /** The effect really runs; the alternative hands the input through. */
    predicate Runs(n: nat) {
      var k := KindOf(n);
      k.Effect? && !Blocks(n) && k.enabled && !(k.effectType.Plugin? && !k.effectType.hosted)
    }

    function InputChannels(n: nat): nat {
      if n >= |nodes| then 0 else if nodes[n].inputs < MAX_CHANNELS then nodes[n].inputs else MAX_CHANNELS
    }

    function OutputChannels(n: nat): nat {
      if n >= |nodes| then 0 else if nodes[n].outputs < MAX_CHANNELS then nodes[n].outputs else MAX_CHANNELS
    }

    /** The channels a processing node carries from its inputs to its outputs. */
    function Carried(n: nat): nat {
      if InputChannels(n) < OutputChannels(n) then InputChannels(n) else OutputChannels(n)
    }
  }

  /** The routes that leave one of the given nodes, in list order. */
  function RoutesFrom(routes: seq<Route>, from: set<nat>): (r: seq<Route>)
    ensures forall x :: x in r <==> x in routes && x.src.node in from
  {
    if routes == [] then []
    else
      var last := routes[|routes| - 1];
      RoutesFrom(routes[..|routes| - 1], from) + (if last.src.node in from then [last] else [])
  }

  lemma {:induction false} RoutesFromAppend(a: seq<Route>, b: seq<Route>, from: set<nat>)
    ensures RoutesFrom(a + b, from) == RoutesFrom(a, from) + RoutesFrom(b, from)
  {
    if b == [] {
      assert a + b == a;
    } else {
      RoutesFromAppend(a, b[..|b| - 1], from);
      assert (a + b)[..|a + b| - 1] == a + b[..|b| - 1];
    }
  }

  function Amplified(sample: real, gain: real): real {
    sample * gain
  }

  /** What one route adds to frame f of the given input. */
  ghost function Term(cfg: Config, r: Route, dst: Port, out: Signals, f: nat): real
    requires f < BUFFER_FRAMES
  {
    if r.dst == dst then Amplified(out(r.src)[f], cfg.gains(r.src.node)) else 0.0
  }

  /** The gain-weighted sum of the routes into one input, at frame f. */
  ghost function InputSum(cfg: Config, routes: seq<Route>, dst: Port, out: Signals, f: nat): real
    requires f < BUFFER_FRAMES
  {
    if routes == [] then 0.0
    else InputSum(cfg, routes[..|routes| - 1], dst, out, f) + Term(cfg, routes[|routes| - 1], dst, out, f)
  }

  /** The same sum, restricted to the routes that leave one of the given nodes. */
  ghost function SumFrom(cfg: Config, routes: seq<Route>, from: set<nat>, dst: Port, out: Signals, f: nat): real
    requires f < BUFFER_FRAMES
  {
    InputSum(cfg, RoutesFrom(routes, from), dst, out, f)
  }

  lemma InputSumLast(cfg: Config, routes: seq<Route>, r: Route, dst: Port, out: Signals, f: nat)
    requires f < BUFFER_FRAMES
    ensures InputSum(cfg, routes + [r], dst, out, f) == InputSum(cfg, routes, dst, out, f) + Term(cfg, r, dst, out, f)
  {
    assert (routes + [r])[..|routes + [r]| - 1] == routes;
  }

  lemma {:induction false} InputSumAppend(cfg: Config, a: seq<Route>, b: seq<Route>, dst: Port, out: Signals, f: nat)
    requires f < BUFFER_FRAMES
    ensures InputSum(cfg, a + b, dst, out, f) == InputSum(cfg, a, dst, out, f) + InputSum(cfg, b, dst, out, f)
  {
    if b == [] {
      assert a + b == a;
    } else {
      assert (a + b)[..|a + b| - 1] == a + b[..|b| - 1];
      InputSumAppend(cfg, a, b[..|b| - 1], dst, out, f);
    }
  }

  /** A sum only looks at the outputs its routes leave. */
  lemma {:induction false} InputSumFrame(cfg: Config, routes: seq<Route>, dst: Port, out: Signals, out': Signals, f: nat)
    requires f < BUFFER_FRAMES
    requires forall r :: r in routes && r.dst == dst ==> out(r.src) == out'(r.src)
    ensures InputSum(cfg, routes, dst, out, f) == InputSum(cfg, routes, dst, out', f)
  {
    if routes != [] {
      InputSumFrame(cfg, routes[..|routes| - 1], dst, out, out', f);
    }
  }

  lemma SumFromLast(cfg: Config, routes: seq<Route>, from: set<nat>, dst: Port, out: Signals, f: nat)
    requires f < BUFFER_FRAMES && routes != []
    ensures var init, last := routes[..|routes| - 1], routes[|routes| - 1];
            SumFrom(cfg, routes, from, dst, out, f) ==
            SumFrom(cfg, init, from, dst, out, f) + if last.src.node in from then Term(cfg, last, dst, out, f) else 0.0
  {
    var tail, last := RoutesFrom(routes[..|routes| - 1], from), routes[|routes| - 1];
    if last.src.node in from {
      InputSumLast(cfg, tail, last, dst, out, f);
      assert RoutesFrom(routes, from) == tail + [last];
    } else {
      assert RoutesFrom(routes, from) == tail;
    }
  }

  /** Sums over disjoint sets of source nodes add up. */
  lemma {:induction false} SumFromUnion(cfg: Config, routes: seq<Route>, a: set<nat>, b: set<nat>, dst: Port,
                                        out: Signals, f: nat)
    requires f < BUFFER_FRAMES && a !! b
    ensures SumFrom(cfg, routes, a + b, dst, out, f) == SumFrom(cfg, routes, a, dst, out, f) + SumFrom(cfg, routes, b, dst, out, f)
  {
    if routes != [] {
      SumFromUnion(cfg, routes[..|routes| - 1], a, b, dst, out, f);
      SumFromLast(cfg, routes, a, dst, out, f);
      SumFromLast(cfg, routes, b, dst, out, f);
      SumFromLast(cfg, routes, a + b, dst, out, f);
    }
  }

  lemma {:induction false} SumFromAll(cfg: Config, routes: seq<Route>, from: set<nat>, dst: Port, out: Signals, f: nat)
    requires f < BUFFER_FRAMES
    requires forall r :: r in routes ==> r.src.node in from
    ensures SumFrom(cfg, routes, from, dst, out, f) == InputSum(cfg, routes, dst, out, f)
  {
    if routes != [] {
      SumFromAll(cfg, routes[..|routes| - 1], from, dst, out, f);
      SumFromLast(cfg, routes, from, dst, out, f);
    }
  }
}
