/**
 The block evaluator of the audio graph. Inputs and outputs are pointers into a fixed set of
 buffers: the first unit-gain contribution to an input aliases the source's buffer, a second one
 copies it into the input's own storage first, and pass-through nodes alias their input.
 A pointer is modelled by the name of the buffer it points to.
 */
module GraphMixer {
  import opened AudioGraph

  datatype Buf = Silence | InStore(port: Port) | OutStore(port: Port)

  datatype Buffers = Buffers(
    inputs: Port -> Buf,
    outputs: Port -> Buf,
    contributions: Port -> nat,
    memory: Buf -> Block)

  function Set<K(==), V>(table: K -> V, key: K, value: V): K -> V {
    k => if k == key then value else table(k)
  }

  function Scaled(src: Block, gain: real): Block {
    seq(BUFFER_FRAMES, f requires 0 <= f < BUFFER_FRAMES => Amplified(src[f], gain))
  }

  function Mixed(dst: Block, src: Block, gain: real): Block {
    seq(BUFFER_FRAMES, f requires 0 <= f < BUFFER_FRAMES => dst[f] + Amplified(src[f], gain))
  }

  /** Copy on write: an input that aliases another buffer moves to its own storage. */
  function CopiedMemory(s: Buffers, dst: Port): Buf -> Block {
    if s.inputs(dst) != InStore(dst) then Set<Buf, Block>(s.memory, InStore(dst), s.memory(s.inputs(dst))) else s.memory
  }

  predicate Skipped(cfg: Config, s: Buffers, r: Route) {
    cfg.gains(r.src.node) == 0.0 || s.outputs(r.src) == Silence || cfg.Blocks(r.dst.node)
  }

  function Aliased(s: Buffers, dst: Port, src: Buf): Buffers {
    s.(inputs := Set(s.inputs, dst, src), contributions := Set(s.contributions, dst, 1))
  }

  function Stored(s: Buffers, memory: Buf -> Block, dst: Port, block: Block, count: nat): Buffers {
    Buffers(Set(s.inputs, dst, InStore(dst)), s.outputs, Set(s.contributions, dst, count), Set<Buf, Block>(memory, InStore(dst), block))
  }

  /** The effect of routing one edge. */
  function Routed(cfg: Config, s: Buffers, r: Route): Buffers {
    var gain, src, count := cfg.gains(r.src.node), s.outputs(r.src), s.contributions(r.dst);
    if Skipped(cfg, s, r) then s
    else if count == 0 then
      if gain == 1.0 then Aliased(s, r.dst, src) else Stored(s, s.memory, r.dst, Scaled(s.memory(src), gain), 1)
    else
      var m := CopiedMemory(s, r.dst);
      Stored(s, m, r.dst, Mixed(m(InStore(r.dst)), m(src), gain), if count < 255 then count + 1 else count)
  }

  /** What processing does to one output channel. */
  function ProcessedChannel(cfg: Config, s: Buffers, p: Port): Buffers {
    if cfg.Blocks(p.node) || p.channel >= cfg.Carried(p.node) then
      s.(outputs := Set(s.outputs, p, Silence))
    else if cfg.Runs(p.node) then
      s.(outputs := Set(s.outputs, p, OutStore(p)),
         memory := Set<Buf, Block>(s.memory, OutStore(p), cfg.fx(p, s.memory(s.inputs(p)))))
    else
      s.(outputs := Set(s.outputs, p, s.inputs(p)))
  }

  function ProcessedUpTo(cfg: Config, s: Buffers, n: nat, channels: nat): Buffers {
    if channels == 0 then s else ProcessedChannel(cfg, ProcessedUpTo(cfg, s, n, channels - 1), Port(n, channels - 1))
  }

  /** The effect of processing one pass or effect node, channel by channel. */
  function Processed(cfg: Config, s: Buffers, n: nat): Buffers {
    if cfg.Carried(n) == 0 then s else ProcessedUpTo(cfg, s, n, cfg.OutputChannels(n))
  }

  // ------------------------------------------------------------------------------------------
  // What the graph means, independently of how it is evaluated.

  /** The signal one output channel carries, given what its source renders and the node inputs. */
  ghost function NodeOutput(cfg: Config, p: Port, rendered: Signals, ins: Signals): Block {
    var n := p.node;
    if cfg.IsSource(n) then rendered(p)
    else if p.channel >= cfg.Carried(n) || cfg.Blocks(n) || !cfg.IsProcess(n) then Zero()
    else if cfg.Runs(n) then cfg.fx(p, ins(p))
    else ins(p)
  }

  /**
   A pair of signal assignments solves the graph when every unblocked input is the gain-weighted
   sum of its routes and every output is what its node makes of its inputs.
   */
  ghost predicate Solves(cfg: Config, routes: seq<Route>, rendered: Signals, ins: Signals, outs: Signals) {
    && (forall p: Port, f :: !cfg.Blocks(p.node) && 0 <= f < BUFFER_FRAMES ==>
          ins(p)[f] == InputSum(cfg, routes, p, outs, f))
    && (forall p :: outs(p) == NodeOutput(cfg, p, rendered, ins))
  }

  /** Every process node comes after the process nodes that feed it. */
  ghost predicate Topological(cfg: Config, routes: seq<Route>, order: seq<nat>) {
    && (forall n: nat :: n in order <==> cfg.IsProcess(n))
    && (forall i, j :: 0 <= i < j < |order| ==> order[i] != order[j])
    && (forall r, i, j ::
          r in routes && 0 <= i < |order| && 0 <= j < |order| && r.src.node == order[i] && r.dst.node == order[j] ==> i < j)
  }

  ghost function Ins(s: Buffers): Signals {
    p => s.memory(s.inputs(p))
  }

  ghost function Outs(s: Buffers): Signals {
    p => s.memory(s.outputs(p))
  }

  // ------------------------------------------------------------------------------------------
  // The invariant of one block.

  /** Buffers that finished nodes may still be read through; nothing writes them any more. */
  ghost predicate Frozen(cfg: Config, done: set<nat>, b: Buf) {
    match b
    case Silence => true
    case InStore(p) => p.node in done && !cfg.IsSource(p.node)
    case OutStore(p) => p.node in done
  }

  ghost predicate Pointers(cfg: Config, s: Buffers, done: set<nat>) {
    && (forall p: Port :: p.node in done ==> Frozen(cfg, done, s.outputs(p)))
    && (forall p: Port :: cfg.IsSource(p.node) ==> s.outputs(p) == OutStore(p))
    && (forall p: Port :: p.node !in done && !cfg.IsSource(p.node) ==> s.outputs(p) == Silence)
    && (forall p: Port :: s.inputs(p) == InStore(p) || Frozen(cfg, done, s.inputs(p)))
    && (forall p: Port :: s.contributions(p) == 0 ==> s.inputs(p) == Silence)
    && s.memory(Silence) == Zero()
  }

  ghost predicate Sums(cfg: Config, s: Buffers, executed: seq<Route>) {
    forall p: Port, f :: !cfg.Blocks(p.node) && 0 <= f < BUFFER_FRAMES ==>
      Ins(s)(p)[f] == InputSum(cfg, executed, p, Outs(s), f)
  }

  ghost predicate Outputs(cfg: Config, s: Buffers, done: set<nat>, rendered: Signals) {
    forall p: Port :: p.node in done ==> Outs(s)(p) == NodeOutput(cfg, p, rendered, Ins(s))
  }

  /** `done` are the nodes whose outputs are final, `executed` the routes that have been added. */
  ghost predicate Inv(cfg: Config, s: Buffers, done: set<nat>, executed: seq<Route>, rendered: Signals) {
    && (forall n: nat :: cfg.IsSource(n) ==> n in done)
    && (forall r :: r in executed ==> r.src.node in done)
    && Pointers(cfg, s, done)
    && Sums(cfg, s, executed)
    && Outputs(cfg, s, done, rendered)
  }

  /** No input but dst's, and no output, reads the storage that t may hold differently from s. */
  ghost predicate OnlyInput(s: Buffers, t: Buffers, dst: Port) {
    && t.outputs == s.outputs
    && (forall b :: b != InStore(dst) ==> t.memory(b) == s.memory(b))
    && (forall p :: s.outputs(p) != InStore(dst))
    && (forall p :: p != dst ==> t.inputs(p) == s.inputs(p) && s.inputs(p) != InStore(dst))
  }

  /**
   Routing leaves every buffer alone that any other input or any finished output still reads, and
   the routed input afterwards holds what it held before plus the route's term.
   */
  lemma RoutedAdds(cfg: Config, s: Buffers, r: Route, done: set<nat>)
    requires Pointers(cfg, s, done)
    requires r.src.node in done && (r.dst.node !in done || cfg.IsSource(r.dst.node))
    ensures Pointers(cfg, Routed(cfg, s, r), done)
    ensures OnlyInput(s, Routed(cfg, s, r), r.dst)
    ensures !cfg.Blocks(r.dst.node) ==>
              forall f :: 0 <= f < BUFFER_FRAMES ==>
                Ins(Routed(cfg, s, r))(r.dst)[f] == Ins(s)(r.dst)[f] + Amplified(Outs(s)(r.src)[f], cfg.gains(r.src.node))
  {
  }

  lemma RoutedKeepsInv(cfg: Config, s: Buffers, r: Route, done: set<nat>, executed: seq<Route>, rendered: Signals)
    requires Inv(cfg, s, done, executed, rendered)
    requires r.src.node in done && (r.dst.node !in done || cfg.IsSource(r.dst.node))
    ensures Inv(cfg, Routed(cfg, s, r), done, executed + [r], rendered)
  {
    var t := Routed(cfg, s, r);
    RoutedAdds(cfg, s, r, done);
    forall p: Port, f | !cfg.Blocks(p.node) && 0 <= f < BUFFER_FRAMES
      ensures Ins(t)(p)[f] == InputSum(cfg, executed + [r], p, Outs(t), f)
    {
      InputSumLast(cfg, executed, r, p, Outs(s), f);
      InputSumFrame(cfg, executed + [r], p, Outs(s), Outs(t), f);
    }
  }

  /** t is s after the first k channels of node n have been processed. */
  ghost predicate SignalsUpTo(cfg: Config, s: Buffers, t: Buffers, n: nat, rendered: Signals, k: nat) {
    && t.inputs == s.inputs && t.contributions == s.contributions
    && (forall b: Buf :: !(b.OutStore? && b.port.node == n) ==> t.memory(b) == s.memory(b))
    && (forall p: Port :: p.node != n || p.channel >= k ==> t.outputs(p) == s.outputs(p))
    && (forall p: Port :: p.node == n && p.channel < k ==>
          && Outs(t)(p) == NodeOutput(cfg, p, rendered, Ins(s))
          && (t.outputs(p) == OutStore(p) || t.outputs(p) == Silence || t.outputs(p) == s.inputs(p)))
  }

  lemma ChannelSignals(cfg: Config, s: Buffers, t: Buffers, n: nat, done: set<nat>, rendered: Signals, k: nat)
    requires Pointers(cfg, s, done) && cfg.IsProcess(n) && n !in done && SignalsUpTo(cfg, s, t, n, rendered, k)
    ensures SignalsUpTo(cfg, s, ProcessedChannel(cfg, t, Port(n, k)), n, rendered, k + 1)
  {
    var t', last := ProcessedChannel(cfg, t, Port(n, k)), Port(n, k);
    assert forall p: Port :: s.inputs(p) != OutStore(last);
    assert t.memory(s.inputs(last)) == Ins(s)(last);
    assert t.memory(Silence) == Zero();
    assert forall b: Buf :: b != OutStore(last) ==> t'.memory(b) == t.memory(b);
    assert Outs(t')(last) == NodeOutput(cfg, last, rendered, Ins(s));
    forall p: Port | p.node == n && p.channel < k
      ensures Outs(t')(p) == NodeOutput(cfg, p, rendered, Ins(s)) && t'.outputs(p) == t.outputs(p)
    {
      assert t.outputs(p) != OutStore(last);
    }
  }

  lemma {:induction false} ProcessedUpToSignals(cfg: Config, s: Buffers, n: nat, done: set<nat>, rendered: Signals, k: nat)
    requires Pointers(cfg, s, done) && cfg.IsProcess(n) && n !in done
    ensures SignalsUpTo(cfg, s, ProcessedUpTo(cfg, s, n, k), n, rendered, k)
  {
    if k > 0 {
      ProcessedUpToSignals(cfg, s, n, done, rendered, k - 1);
      ChannelSignals(cfg, s, ProcessedUpTo(cfg, s, n, k - 1), n, done, rendered, k - 1);
    }
  }

  lemma ProcessedSignals(cfg: Config, s: Buffers, n: nat, done: set<nat>, rendered: Signals)
    requires Pointers(cfg, s, done) && cfg.IsProcess(n) && n !in done
    ensures Pointers(cfg, Processed(cfg, s, n), done + {n})
    ensures forall p: Port :: Ins(Processed(cfg, s, n))(p) == Ins(s)(p)
    ensures forall p: Port :: p.node in done ==> Outs(Processed(cfg, s, n))(p) == Outs(s)(p)
    ensures forall p: Port :: p.node == n ==> Outs(Processed(cfg, s, n))(p) == NodeOutput(cfg, p, rendered, Ins(s))
  {
    ProcessedUpToSignals(cfg, s, n, done, rendered, cfg.OutputChannels(n));
  }

  /** Processing a node writes only that node's output storage and publishes its outputs. */
  lemma ProcessedKeepsInv(cfg: Config, s: Buffers, n: nat, done: set<nat>, executed: seq<Route>, rendered: Signals)
    requires Inv(cfg, s, done, executed, rendered) && cfg.IsProcess(n) && n !in done
    ensures Inv(cfg, Processed(cfg, s, n), done + {n}, executed, rendered)
  {
    var t := Processed(cfg, s, n);
    ProcessedSignals(cfg, s, n, done, rendered);
    forall p: Port, f | !cfg.Blocks(p.node) && 0 <= f < BUFFER_FRAMES
      ensures Ins(t)(p)[f] == InputSum(cfg, executed, p, Outs(t), f)
    {
      InputSumFrame(cfg, executed, p, Outs(s), Outs(t), f);
    }
  }

  // ------------------------------------------------------------------------------------------
  // One whole block.

  function RoutedAll(cfg: Config, s: Buffers, routes: seq<Route>): Buffers {
    if routes == [] then s else Routed(cfg, RoutedAll(cfg, s, routes[..|routes| - 1]), routes[|routes| - 1])
  }

  /** Each node in order is processed, then its own routes run. */
  function ProcessedAll(cfg: Config, s: Buffers, routes: seq<Route>, order: seq<nat>): Buffers {
    if order == [] then s
    else
      var n := order[|order| - 1];
      RoutedAll(cfg, Processed(cfg, ProcessedAll(cfg, s, routes, order[..|order| - 1]), n), RoutesFrom(routes, {n}))
  }

  /** A source owns its output storage; its content at the start of a block. */
  function SourceMemory(cfg: Config, s: Buffers, content: Signals, b: Buf): Block {
    if b.OutStore? && cfg.IsSource(b.port.node) then content(b.port) else s.memory(b)
  }

  function Cleared(cfg: Config, s: Buffers): Buffers {
    Buffers(_ => Silence,
            (p: Port) => if cfg.IsSource(p.node) then OutStore(p) else Silence,
            _ => 0,
            b => SourceMemory(cfg, s, _ => Zero(), b))
  }

  function Rendered(cfg: Config, s: Buffers, rendered: Signals): Buffers {
    s.(memory := b => SourceMemory(cfg, s, rendered, b))
  }

  function Sources(cfg: Config): set<nat> {
    set n | 0 <= n < |cfg.nodes| && cfg.IsSource(n)
  }

  function RunBlock(cfg: Config, s: Buffers, rendered: Signals, routes: seq<Route>, order: seq<nat>): Buffers {
    var start := Rendered(cfg, Cleared(cfg, s), rendered);
    ProcessedAll(cfg, RoutedAll(cfg, start, RoutesFrom(routes, Sources(cfg))), routes, order)
  }

  lemma StartInv(cfg: Config, s: Buffers, rendered: Signals)
    requires s.memory(Silence) == Zero()
    ensures Inv(cfg, Rendered(cfg, Cleared(cfg, s), rendered), Sources(cfg), [], rendered)
  {
  }

  lemma {:induction false} RoutedAllKeepsInv(cfg: Config, s: Buffers, routes: seq<Route>, done: set<nat>,
                                             executed: seq<Route>, rendered: Signals)
    requires Inv(cfg, s, done, executed, rendered)
    requires forall r :: r in routes ==> r.src.node in done && (r.dst.node !in done || cfg.IsSource(r.dst.node))
    ensures Inv(cfg, RoutedAll(cfg, s, routes), done, executed + routes, rendered)
  {
    if routes == [] {
      assert executed + routes == executed;
    } else {
      var init, last := routes[..|routes| - 1], routes[|routes| - 1];
      RoutedAllKeepsInv(cfg, s, init, done, executed, rendered);
      RoutedKeepsInv(cfg, RoutedAll(cfg, s, init), last, done, executed + init, rendered);
      assert executed + init + [last] == executed + routes;
    }
  }

  /** The routes that have run once the sources and the given nodes are done. */
  function Executed(cfg: Config, routes: seq<Route>, order: seq<nat>): seq<Route> {
    if order == [] then RoutesFrom(routes, Sources(cfg))
    else Executed(cfg, routes, order[..|order| - 1]) + RoutesFrom(routes, {order[|order| - 1]})
  }

  ghost function Elements(s: seq<nat>): set<nat> {
    set x | x in s
  }

  lemma {:induction false} ProcessedAllInv(cfg: Config, s: Buffers, routes: seq<Route>, order: seq<nat>, k: nat, rendered: Signals)
    requires Topological(cfg, routes, order) && k <= |order|
    requires Inv(cfg, s, Sources(cfg), RoutesFrom(routes, Sources(cfg)), rendered)
    ensures Inv(cfg, ProcessedAll(cfg, s, routes, order[..k]), Sources(cfg) + Elements(order[..k]),
                Executed(cfg, routes, order[..k]), rendered)
  {
    if k == 0 {
      assert Sources(cfg) + Elements(order[..k]) == Sources(cfg);
    } else {
      ProcessedAllInv(cfg, s, routes, order, k - 1, rendered);
      var n, before := order[k - 1], Sources(cfg) + Elements(order[..k - 1]);
      assert order[..k][..k - 1] == order[..k - 1];
      assert n in order;
      var t := ProcessedAll(cfg, s, routes, order[..k - 1]);
      ProcessedKeepsInv(cfg, t, n, before, Executed(cfg, routes, order[..k - 1]), rendered);
      assert before + {n} == Sources(cfg) + Elements(order[..k]);
      RoutedAllKeepsInv(cfg, Processed(cfg, t, n), RoutesFrom(routes, {n}), before + {n},
                        Executed(cfg, routes, order[..k - 1]), rendered);
    }
  }

  /** However they are interleaved with processing, the executed routes add up to the whole sum. */
  lemma {:induction false} ExecutedSum(cfg: Config, routes: seq<Route>, order: seq<nat>, k: nat, dst: Port, out: Signals, f: nat)
    requires Topological(cfg, routes, order) && k <= |order| && f < BUFFER_FRAMES
    ensures InputSum(cfg, Executed(cfg, routes, order[..k]), dst, out, f) ==
            SumFrom(cfg, routes, Sources(cfg) + Elements(order[..k]), dst, out, f)
  {
    hide InputSum, RoutesFrom;
    if k == 0 {
      assert Sources(cfg) + Elements(order[..k]) == Sources(cfg);
    } else {
      ExecutedSum(cfg, routes, order, k - 1, dst, out, f);
      var n, before := order[k - 1], Sources(cfg) + Elements(order[..k - 1]);
      assert order[..k][..k - 1] == order[..k - 1];
      assert cfg.IsProcess(n) && n !in before by {
        assert n in order;
      }
      InputSumAppend(cfg, Executed(cfg, routes, order[..k - 1]), RoutesFrom(routes, {n}), dst, out, f);
      SumFromUnion(cfg, routes, before, {n}, dst, out, f);
      assert before + {n} == Sources(cfg) + Elements(order[..k]);
    }
  }

  /**
   One block over a topological order leaves signals that solve the graph: each sink input, like
   any other, holds exactly the gain-weighted sum that reaches it.
   */
  lemma BlockSolves(cfg: Config, s: Buffers, rendered: Signals, routes: seq<Route>, order: seq<nat>)
    requires s.memory(Silence) == Zero() && Topological(cfg, routes, order)
    requires forall r :: r in routes ==> cfg.IsSource(r.src.node) || cfg.IsProcess(r.src.node)
    ensures var t := RunBlock(cfg, s, rendered, routes, order);
            Solves(cfg, routes, rendered, Ins(t), Outs(t)) && t.memory(Silence) == Zero()
  {
    var start, sources := Rendered(cfg, Cleared(cfg, s), rendered), Sources(cfg);
    StartInv(cfg, s, rendered);
    RoutedAllKeepsInv(cfg, start, RoutesFrom(routes, sources), sources, [], rendered);
    assert [] + RoutesFrom(routes, sources) == RoutesFrom(routes, sources);
    assert order[..|order|] == order;
    ProcessedAllInv(cfg, RoutedAll(cfg, start, RoutesFrom(routes, sources)), routes, order, |order|, rendered);
    var t := RunBlock(cfg, s, rendered, routes, order);
    forall p: Port, f | !cfg.Blocks(p.node) && 0 <= f < BUFFER_FRAMES
      ensures Ins(t)(p)[f] == InputSum(cfg, routes, p, Outs(t), f)
    {
      ExecutedSum(cfg, routes, order, |order|, p, Outs(t), f);
      SumFromAll(cfg, routes, sources + Elements(order), p, Outs(t), f);
    }
  }

  lemma {:induction false} ProcessedUpToKeepsSilence(cfg: Config, s: Buffers, n: nat, k: nat)
    ensures ProcessedUpTo(cfg, s, n, k).memory(Silence) == s.memory(Silence)
  {
    if k > 0 {
      ProcessedUpToKeepsSilence(cfg, s, n, k - 1);
    }
  }

  lemma {:induction false} RoutedAllKeepsSilence(cfg: Config, s: Buffers, routes: seq<Route>)
    ensures RoutedAll(cfg, s, routes).memory(Silence) == s.memory(Silence)
  {
    if routes != [] {
      RoutedAllKeepsSilence(cfg, s, routes[..|routes| - 1]);
    }
  }

  lemma {:induction false} ProcessedAllKeepsSilence(cfg: Config, s: Buffers, routes: seq<Route>, order: seq<nat>)
    ensures ProcessedAll(cfg, s, routes, order).memory(Silence) == s.memory(Silence)
  {
    if order != [] {
      var n, init := order[|order| - 1], order[..|order| - 1];
      ProcessedAllKeepsSilence(cfg, s, routes, init);
      ProcessedUpToKeepsSilence(cfg, ProcessedAll(cfg, s, routes, init), n, cfg.OutputChannels(n));
      RoutedAllKeepsSilence(cfg, Processed(cfg, ProcessedAll(cfg, s, routes, init), n), RoutesFrom(routes, {n}));
    }
  }

  /** Whatever the graph, cyclic ones included, a block never writes the shared silence. */
  lemma RunBlockKeepsSilence(cfg: Config, s: Buffers, rendered: Signals, routes: seq<Route>, order: seq<nat>)
    ensures RunBlock(cfg, s, rendered, routes, order).memory(Silence) == s.memory(Silence)
  {
    var start := Rendered(cfg, Cleared(cfg, s), rendered);
    RoutedAllKeepsSilence(cfg, start, RoutesFrom(routes, Sources(cfg)));
    ProcessedAllKeepsSilence(cfg, RoutedAll(cfg, start, RoutesFrom(routes, Sources(cfg))), routes, order);
  }

  // ------------------------------------------------------------------------------------------
  // The solution is unique, so "what the graph denotes" is well defined.

  lemma {:induction false} SolutionsAgreeUpTo(cfg: Config, routes: seq<Route>, order: seq<nat>, rendered: Signals,
                                              ins: Signals, outs: Signals, ins': Signals, outs': Signals, k: nat)
    requires Topological(cfg, routes, order) && k <= |order|
    requires forall r :: r in routes ==> cfg.IsSource(r.src.node) || cfg.IsProcess(r.src.node)
    requires Solves(cfg, routes, rendered, ins, outs) && Solves(cfg, routes, rendered, ins', outs')
    ensures forall p: Port :: cfg.IsSource(p.node) || p.node in order[..k] ==> outs(p) == outs'(p)
  {
    if k > 0 {
      SolutionsAgreeUpTo(cfg, routes, order, rendered, ins, outs, ins', outs', k - 1);
      var n := order[k - 1];
      forall p: Port | p.node == n && !cfg.Blocks(n)
        ensures ins(p) == ins'(p)
      {
        forall f | 0 <= f < BUFFER_FRAMES
          ensures ins(p)[f] == ins'(p)[f]
        {
          forall r | r in routes && r.dst == p
            ensures outs(r.src) == outs'(r.src)
          {
            if !cfg.IsSource(r.src.node) {
              var i :| 0 <= i < |order| && order[i] == r.src.node;
              assert i < k - 1;
              assert order[..k - 1][i] == r.src.node;
            }
          }
          InputSumFrame(cfg, routes, p, outs, outs', f);
        }
      }
      assert forall p: Port :: p.node in order[..k] ==> p.node == n || p.node in order[..k - 1];
    }
  }

  /** Two solutions of the same acyclic graph agree on every output and every unblocked input. */
  lemma SolutionUnique(cfg: Config, routes: seq<Route>, order: seq<nat>, rendered: Signals,
                       ins: Signals, outs: Signals, ins': Signals, outs': Signals)
    requires Topological(cfg, routes, order)
    requires forall r :: r in routes ==> cfg.IsSource(r.src.node) || cfg.IsProcess(r.src.node)
    requires Solves(cfg, routes, rendered, ins, outs) && Solves(cfg, routes, rendered, ins', outs')
    ensures forall p :: outs(p) == outs'(p)
    ensures forall p: Port :: !cfg.Blocks(p.node) ==> ins(p) == ins'(p)
  {
    SolutionsAgreeUpTo(cfg, routes, order, rendered, ins, outs, ins', outs', |order|);
    assert order[..|order|] == order;
    forall p: Port | !cfg.Blocks(p.node)
      ensures ins(p) == ins'(p)
    {
      forall f | 0 <= f < BUFFER_FRAMES
        ensures ins(p)[f] == ins'(p)[f]
      {
        InputSumFrame(cfg, routes, p, outs, outs', f);
      }
    }
  }
}
