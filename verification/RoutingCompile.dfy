/**
 Compilation of a saved routing graph. Edges through the mixer node ("routing_helper") are replaced
 by direct edges, one for each matching pair of an incoming and an outgoing edge; the remaining
 edges become routes between node indices when both ends exist and the channels are in range.
 */
module RoutingCompile {
  import opened AudioGraph

  const HELPER := "routing_helper"

  datatype Edge = Edge(src: string, srcChannel: nat, dst: string, dstChannel: nat)

  datatype Thing = Thing(id: string, inputs: nat, outputs: nat)

  predicate IsDirect(e: Edge) {
    e.src != HELPER && e.dst != HELPER
  }

  predicate Joins(incoming: Edge, outgoing: Edge) {
    outgoing.src == HELPER && incoming.dstChannel == outgoing.srcChannel
  }

  function Joined(incoming: Edge, outgoing: Edge): Edge {
    Edge(incoming.src, incoming.srcChannel, outgoing.dst, outgoing.dstChannel)
  }

  function Direct(edges: seq<Edge>): seq<Edge> {
    if edges == [] then []
    else
      var last := edges[|edges| - 1];
      Direct(edges[..|edges| - 1]) + if IsDirect(last) then [last] else []
  }

  /** The continuations of one edge into the mixer. */
  function Continued(incoming: Edge, edges: seq<Edge>): seq<Edge> {
    if edges == [] then []
    else
      var last := edges[|edges| - 1];
      Continued(incoming, edges[..|edges| - 1]) + if Joins(incoming, last) then [Joined(incoming, last)] else []
  }

  function Paths(incoming: seq<Edge>, edges: seq<Edge>): seq<Edge> {
    if incoming == [] then []
    else
      var last := incoming[|incoming| - 1];
      Paths(incoming[..|incoming| - 1], edges) + if last.dst == HELPER then Continued(last, edges) else []
  }

  /** All edges of the expanded graph, before the table limit is applied. */
  function Expanded(edges: seq<Edge>): seq<Edge> {
    Direct(edges) + Paths(edges, edges)
  }

  function Truncated(edges: seq<Edge>): (t: seq<Edge>)
    ensures |t| <= MAX_EDGES
  {
    if |edges| <= MAX_EDGES then edges else edges[..MAX_EDGES]
  }

  /** The edge table being compiled; a full table counts what it turns away. */
  class EdgeTable {
    var edges: seq<Edge>
    var skipped: nat
    ghost var offered: seq<Edge>

    ghost predicate Valid()
      reads this
    {
      edges == Truncated(offered) && skipped == |offered| - |edges|
    }

    constructor ()
      ensures Valid() && offered == []
    {
      edges, skipped, offered := [], 0, [];
    }

    method Append(e: Edge)
      requires Valid()
      modifies this
      ensures Valid() && offered == old(offered) + [e]
    {
      if |edges| < MAX_EDGES {
        edges := edges + [e];
      } else {
        skipped := skipped + 1;
      }
      offered := offered + [e];
    }
  }

  class SavedGraph {
    var edges: seq<Edge>

    constructor (saved: seq<Edge>)
      ensures edges == saved
    {
      edges := saved;
    }

    /** Direct routes come first. */
    method AppendDirect(table: EdgeTable)
      requires table.Valid()
      modifies table
      ensures table.Valid() && table.offered == old(table.offered) + Direct(edges)
    {
      for i := 0 to |edges|
        invariant table.Valid() && table.offered == old(table.offered) + Direct(edges[..i])
      {
        assert edges[..i + 1][..i] == edges[..i];
        if IsDirect(edges[i]) {
          table.Append(edges[i]);
        }
      }
      assert edges[..|edges|] == edges;
    }

    method AppendContinued(table: EdgeTable, incoming: Edge)
      requires table.Valid()
      modifies table
      ensures table.Valid() && table.offered == old(table.offered) + Continued(incoming, edges)
    {
      for j := 0 to |edges|
        invariant table.Valid() && table.offered == old(table.offered) + Continued(incoming, edges[..j])
      {
        assert edges[..j + 1][..j] == edges[..j];
        if Joins(incoming, edges[j]) {
          table.Append(Joined(incoming, edges[j]));
        }
      }
      assert edges[..|edges|] == edges;
    }

    /** Then the paths through the mixer, in saved incoming and outgoing order. */
    method AppendPaths(table: EdgeTable)
      requires table.Valid()
      modifies table
      ensures table.Valid() && table.offered == old(table.offered) + Paths(edges, edges)
    {
      for i := 0 to |edges|
        invariant table.Valid() && table.offered == old(table.offered) + Paths(edges[..i], edges)
      {
        assert edges[..i + 1][..i] == edges[..i];
        if edges[i].dst == HELPER {
          AppendContinued(table, edges[i]);
        }
      }
      assert edges[..|edges|] == edges;
    }

    /** Replaces the edges by the expanded ones; nothing is skipped exactly when they all fit. */
    method ExpandRoutingHelper() returns (skipped: nat)
      modifies this
      ensures edges == Truncated(Expanded(old(edges)))
      ensures skipped == |Expanded(old(edges))| - |edges|
      ensures skipped == 0 <==> edges == Expanded(old(edges))
    {
      var table := new EdgeTable();
      AppendDirect(table);
      AppendPaths(table);
      assert table.offered == Expanded(edges);
      edges := table.edges;
      skipped := table.skipped;
    }
  }

  // ------------------------------------------------------------------------------------------
  // What the edges mean.

  /** The contribution of an endpoint at one frame: its gain times its signal, or silence. */
  type Values = (string, nat) -> real

  ghost function EdgeSum(edges: seq<Edge>, dst: string, channel: nat, values: Values): real {
    if edges == [] then 0.0
    else
      var last := edges[|edges| - 1];
      EdgeSum(edges[..|edges| - 1], dst, channel, values) +
      if last.dst == dst && last.dstChannel == channel then values(last.src, last.srcChannel) else 0.0
  }

  /** What reaches an input of the saved graph, with the mixer read as a unit-gain sum per channel. */
  ghost function SavedSum(edges: seq<Edge>, all: seq<Edge>, dst: string, channel: nat, values: Values): real {
    if edges == [] then 0.0
    else
      var last := edges[|edges| - 1];
      SavedSum(edges[..|edges| - 1], all, dst, channel, values) +
      if last.dst != dst || last.dstChannel != channel then 0.0
      else if last.src == HELPER then EdgeSum(all, HELPER, last.srcChannel, values)
      else values(last.src, last.srcChannel)
  }

  lemma {:induction false} EdgeSumAppend(a: seq<Edge>, b: seq<Edge>, dst: string, channel: nat, values: Values)
    ensures EdgeSum(a + b, dst, channel, values) == EdgeSum(a, dst, channel, values) + EdgeSum(b, dst, channel, values)
  {
    if b == [] {
      assert a + b == a;
    } else {
      assert (a + b)[..|a + b| - 1] == a + b[..|b| - 1];
      EdgeSumAppend(a, b[..|b| - 1], dst, channel, values);
    }
  }

  lemma EdgeSumSingle(e: Edge, dst: string, channel: nat, values: Values)
    ensures EdgeSum([e], dst, channel, values) ==
            if e.dst == dst && e.dstChannel == channel then values(e.src, e.srcChannel) else 0.0
  {
    assert [e][..0] == [];
  }

  /** How often the mixer channel c leads on to the given input. */
  ghost function Exits(edges: seq<Edge>, c: nat, dst: string, channel: nat): nat {
    if edges == [] then 0
    else
      var last := edges[|edges| - 1];
      Exits(edges[..|edges| - 1], c, dst, channel) +
      if last.src == HELPER && last.srcChannel == c && last.dst == dst && last.dstChannel == channel then 1 else 0
  }

  function Times(n: nat, x: real): real {
    if n == 0 then 0.0 else Times(n - 1, x) + x
  }

  lemma {:induction false} ContinuedSum(incoming: Edge, edges: seq<Edge>, dst: string, channel: nat, values: Values)
    ensures EdgeSum(Continued(incoming, edges), dst, channel, values) ==
            Times(Exits(edges, incoming.dstChannel, dst, channel), values(incoming.src, incoming.srcChannel))
  {
    if edges != [] {
      var init, last := edges[..|edges| - 1], edges[|edges| - 1];
      ContinuedSum(incoming, init, dst, channel, values);
      if Joins(incoming, last) {
        EdgeSumAppend(Continued(incoming, init), [Joined(incoming, last)], dst, channel, values);
        EdgeSumSingle(Joined(incoming, last), dst, channel, values);
      } else {
        assert Continued(incoming, edges) == Continued(incoming, init);
      }
    }
  }

  /** The sum over the edges into the mixer, each weighted by its exits towards the input. */
  ghost function ThroughMixer(incoming: seq<Edge>, exits: seq<Edge>, dst: string, channel: nat, values: Values): real {
    if incoming == [] then 0.0
    else
      var last := incoming[|incoming| - 1];
      ThroughMixer(incoming[..|incoming| - 1], exits, dst, channel, values) +
      if last.dst != HELPER then 0.0
      else Times(Exits(exits, last.dstChannel, dst, channel), values(last.src, last.srcChannel))
  }

  lemma {:induction false} PathsSum(incoming: seq<Edge>, edges: seq<Edge>, dst: string, channel: nat, values: Values)
    ensures EdgeSum(Paths(incoming, edges), dst, channel, values) == ThroughMixer(incoming, edges, dst, channel, values)
  {
    if incoming != [] {
      var init, last := incoming[..|incoming| - 1], incoming[|incoming| - 1];
      PathsSum(init, edges, dst, channel, values);
      if last.dst == HELPER {
        EdgeSumAppend(Paths(init, edges), Continued(last, edges), dst, channel, values);
        ContinuedSum(last, edges, dst, channel, values);
      } else {
        assert Paths(incoming, edges) == Paths(init, edges);
      }
    }
  }

  /** One more exit of the mixer adds the whole mixer channel once. */
  lemma {:induction false} ExitAddsChannel(incoming: seq<Edge>, exits: seq<Edge>, exit: Edge, dst: string, channel: nat, values: Values)
    ensures ThroughMixer(incoming, exits + [exit], dst, channel, values) ==
            ThroughMixer(incoming, exits, dst, channel, values) +
            if exit.src == HELPER && exit.dst == dst && exit.dstChannel == channel
            then EdgeSum(incoming, HELPER, exit.srcChannel, values) else 0.0
  {
    assert (exits + [exit])[..|exits + [exit]| - 1] == exits;
    if incoming != [] {
      ExitAddsChannel(incoming[..|incoming| - 1], exits, exit, dst, channel, values);
    }
  }

  lemma {:induction false} NoExits(incoming: seq<Edge>, dst: string, channel: nat, values: Values)
    ensures ThroughMixer(incoming, [], dst, channel, values) == 0.0
  {
    if incoming != [] {
      NoExits(incoming[..|incoming| - 1], dst, channel, values);
    }
  }

  lemma {:induction false} DirectAndMixer(edges: seq<Edge>, all: seq<Edge>, dst: string, channel: nat, values: Values)
    requires dst != HELPER
    ensures EdgeSum(Direct(edges), dst, channel, values) + ThroughMixer(all, edges, dst, channel, values) ==
            SavedSum(edges, all, dst, channel, values)
  {
    if edges == [] {
      NoExits(all, dst, channel, values);
    } else {
      var init, last := edges[..|edges| - 1], edges[|edges| - 1];
      DirectAndMixer(init, all, dst, channel, values);
      assert edges == init + [last];
      ExitAddsChannel(all, init, last, dst, channel, values);
      if IsDirect(last) {
        EdgeSumAppend(Direct(init), [last], dst, channel, values);
        EdgeSumSingle(last, dst, channel, values);
      } else {
        assert Direct(edges) == Direct(init);
      }
    }
  }

  /** Eliminating the mixer preserves what reaches every other input. */
  lemma ExpansionPreservesSums(edges: seq<Edge>, dst: string, channel: nat, values: Values)
    requires dst != HELPER
    ensures EdgeSum(Expanded(edges), dst, channel, values) == SavedSum(edges, edges, dst, channel, values)
  {
    EdgeSumAppend(Direct(edges), Paths(edges, edges), dst, channel, values);
    PathsSum(edges, edges, dst, channel, values);
    DirectAndMixer(edges, edges, dst, channel, values);
  }
}
