/**
 Ordering of the processing nodes and grouping of their routes. The sort picks, again and again,
 the first listed node that nothing unprocessed feeds; it gives up on a cycle and then leaves the
 list as it was. The index groups the routes by source node, keeping their order.
 */
module GraphSort {
  import opened AudioGraph

  ghost predicate Feeds(nodes: seq<nat>, routes: seq<Route>, a: nat, b: nat) {
    a in nodes && b in nodes && exists r :: r in routes && r.src.node == a && r.dst.node == b
  }

  ghost predicate Walk(nodes: seq<nat>, routes: seq<Route>, walk: seq<nat>) {
    forall i :: 0 <= i < |walk| - 1 ==> Feeds(nodes, routes, walk[i], walk[i + 1])
  }

  ghost predicate Cycle(nodes: seq<nat>, routes: seq<Route>, walk: seq<nat>) {
    |walk| >= 2 && walk[0] == walk[|walk| - 1] && Walk(nodes, routes, walk)
  }

  ghost predicate Cyclic(nodes: seq<nat>, routes: seq<Route>) {
    exists walk :: Cycle(nodes, routes, walk)
  }

  ghost predicate Distinct(s: seq<nat>) {
    forall i, j :: 0 <= i < j < |s| ==> s[i] != s[j]
  }

  /** Whatever feeds a node stands before it. */
  ghost predicate Ordered(nodes: seq<nat>, routes: seq<Route>, order: seq<nat>) {
    forall a: nat, j :: 0 <= j < |order| && Feeds(nodes, routes, a, order[j]) ==> a in order[..j]
  }

  ghost predicate TopologicalOrder(nodes: seq<nat>, routes: seq<Route>, order: seq<nat>) {
    && Distinct(order) && Ordered(nodes, routes, order)
    && |order| == |nodes| && forall n :: n in order <==> n in nodes
  }

  // ------------------------------------------------------------------------------------------
  // Cycles and orders exclude each other.

  lemma {:induction false} WalkIncreases(nodes: seq<nat>, routes: seq<Route>, order: seq<nat>, walk: seq<nat>, j: nat)
    requires TopologicalOrder(nodes, routes, order) && |walk| >= 1 && Walk(nodes, routes, walk)
    requires j < |order| && order[j] == walk[|walk| - 1]
    ensures |walk| >= 2 ==> walk[0] in order[..j]
  {
    if |walk| >= 2 {
      var init := walk[..|walk| - 1];
      assert Feeds(nodes, routes, walk[|walk| - 2], walk[|walk| - 2 + 1]);
      var i :| 0 <= i < j && order[i] == init[|init| - 1];
      WalkIncreases(nodes, routes, order, init, i);
      assert order[..i] <= order[..j];
    }
  }

  lemma OrderExcludesCycle(nodes: seq<nat>, routes: seq<Route>, order: seq<nat>)
    requires TopologicalOrder(nodes, routes, order)
    ensures !Cyclic(nodes, routes)
  {
    forall walk | Cycle(nodes, routes, walk)
      ensures false
    {
      assert Feeds(nodes, routes, walk[0], walk[0 + 1]);
      var j :| 0 <= j < |order| && order[j] == walk[0];
      WalkIncreases(nodes, routes, order, walk, j);
    }
  }

  lemma {:induction false} DistinctFits(s: seq<nat>, bag: set<nat>)
    requires Distinct(s) && forall x :: x in s ==> x in bag
    ensures |s| <= |bag|
  {
    if s != [] {
      DistinctFits(s[1..], bag - {s[0]});
    }
  }

  ghost predicate FedWithin(nodes: seq<nat>, routes: seq<Route>, live: set<nat>, b: nat) {
    exists a :: a in live && Feeds(nodes, routes, a, b)
  }

  lemma WalkPrepend(nodes: seq<nat>, routes: seq<Route>, a: nat, rest: seq<nat>)
    requires rest != [] && Walk(nodes, routes, rest) && Feeds(nodes, routes, a, rest[0])
    ensures Walk(nodes, routes, [a] + rest) && forall x :: x in [a] + rest ==> x == a || x in rest
  {
    var walk := [a] + rest;
    forall i | 0 <= i < |walk| - 1
      ensures Feeds(nodes, routes, walk[i], walk[i + 1])
    {
      if i > 0 {
        assert Feeds(nodes, routes, rest[i - 1], rest[i - 1 + 1]);
      }
    }
  }

  /** If every node of a nonempty set is fed from within the set, walks of any length exist in it. */
  lemma {:induction false} BackwardWalk(nodes: seq<nat>, routes: seq<Route>, live: set<nat>, length: nat) returns (walk: seq<nat>)
    requires live != {} && length >= 1
    requires forall b :: b in live ==> FedWithin(nodes, routes, live, b)
    ensures |walk| == length && Walk(nodes, routes, walk) && forall x :: x in walk ==> x in live
  {
    if length == 1 {
      var x :| x in live;
      walk := [x];
    } else {
      hide Walk, Feeds;
      var rest := BackwardWalk(nodes, routes, live, length - 1);
      assert FedWithin(nodes, routes, live, rest[0]);
      var a :| a in live && Feeds(nodes, routes, a, rest[0]);
      WalkPrepend(nodes, routes, a, rest);
      walk := [a] + rest;
    }
  }

  lemma WalkSlice(nodes: seq<nat>, routes: seq<Route>, walk: seq<nat>, i: nat, j: nat)
    requires Walk(nodes, routes, walk) && i <= j <= |walk|
    ensures Walk(nodes, routes, walk[i..j])
  {
    forall k | 0 <= k < j - i - 1
      ensures Feeds(nodes, routes, walk[i..j][k], walk[i..j][k + 1])
    {
      assert Feeds(nodes, routes, walk[i + k], walk[i + k + 1]);
    }
  }

  lemma StuckMeansCyclic(nodes: seq<nat>, routes: seq<Route>, live: set<nat>)
    requires live != {}
    requires forall b :: b in live ==> FedWithin(nodes, routes, live, b)
    ensures Cyclic(nodes, routes)
  {
    var walk := BackwardWalk(nodes, routes, live, |live| + 1);
    if Distinct(walk) {
      DistinctFits(walk, live);
    } else {
      var i, j :| 0 <= i < j < |walk| && walk[i] == walk[j];
      WalkSlice(nodes, routes, walk, i, j + 1);
      assert Cycle(nodes, routes, walk[i..j + 1]);
    }
  }

  // ------------------------------------------------------------------------------------------
  // Counting the routes that still hold a node back.

  function Pending(routes: seq<Route>, live: set<nat>, node: nat): nat {
    if routes == [] then 0
    else
      var last := routes[|routes| - 1];
      Pending(routes[..|routes| - 1], live, node) + if last.src.node in live && last.dst.node == node then 1 else 0
  }

  lemma PendingNext(routes: seq<Route>, i: nat, live: set<nat>, node: nat)
    requires i < |routes|
    ensures Pending(routes[..i + 1], live, node) ==
            Pending(routes[..i], live, node) + if routes[i].src.node in live && routes[i].dst.node == node then 1 else 0
  {
    assert routes[..i + 1][..i] == routes[..i];
  }

  lemma {:induction false} PendingWithout(routes: seq<Route>, live: set<nat>, gone: nat, node: nat)
    requires gone in live
    ensures Pending(routes, live, node) == Pending(routes, live - {gone}, node) + Pending(routes, {gone}, node)
  {
    if routes != [] {
      PendingWithout(routes[..|routes| - 1], live, gone, node);
    }
  }

  lemma {:induction false} PendingPrefix(routes: seq<Route>, i: nat, live: set<nat>, node: nat)
    requires i <= |routes|
    ensures Pending(routes[..i], live, node) <= Pending(routes, live, node)
    decreases |routes| - i
  {
    if i < |routes| {
      PendingNext(routes, i, live, node);
      PendingPrefix(routes, i + 1, live, node);
    } else {
      assert routes[..i] == routes;
    }
  }

  lemma {:induction false} PendingZero(routes: seq<Route>, live: set<nat>, node: nat)
    ensures Pending(routes, live, node) == 0 <==> forall r :: r in routes && r.src.node in live ==> r.dst.node != node
  {
    if routes != [] {
      var init, last := routes[..|routes| - 1], routes[|routes| - 1];
      PendingZero(init, live, node);
      assert routes == init + [last];
    }
  }

  ghost function Elements(s: seq<nat>): set<nat> {
    set x | x in s
  }

  ghost predicate Counted(inDegree: seq<nat>, nodes: seq<nat>, routes: seq<Route>, live: set<nat>) {
    forall x :: 0 <= x < |inDegree| ==> inDegree[x] == if x in nodes then Pending(routes, live, x) else 0
  }

  method CountInDegrees(nodes: seq<nat>, routes: seq<Route>, nodeCount: nat) returns (inDegree: seq<nat>)
    requires forall r :: r in routes ==> r.dst.node < nodeCount
    ensures |inDegree| == nodeCount && Counted(inDegree, nodes, routes, Elements(nodes))
  {
    inDegree := seq(nodeCount, _ => 0);
    for i := 0 to |routes|
      invariant |inDegree| == nodeCount && Counted(inDegree, nodes, routes[..i], Elements(nodes))
    {
      var route := routes[i];
      forall x: nat {
        PendingNext(routes, i, Elements(nodes), x);
      }
      if route.src.node in nodes && route.dst.node in nodes {
        inDegree := inDegree[route.dst.node := inDegree[route.dst.node] + 1];
      }
    }
    assert routes[..|routes|] == routes;
  }

  /** Takes a picked node's routes off the counters of the nodes they lead to. */
  method ReleaseRoutes(nodes: seq<nat>, routes: seq<Route>, inDegree0: seq<nat>, picked: nat, ghost live: set<nat>)
    returns (inDegree: seq<nat>)
    requires forall r :: r in routes ==> r.dst.node < |inDegree0|
    requires Counted(inDegree0, nodes, routes, live) && picked in live
    ensures |inDegree| == |inDegree0| && Counted(inDegree, nodes, routes, live - {picked})
  {
    inDegree := inDegree0;
    for i := 0 to |routes|
      invariant |inDegree| == |inDegree0|
      invariant forall x :: 0 <= x < |inDegree| ==>
                  inDegree[x] == if x in nodes then Pending(routes, live, x) - Pending(routes[..i], {picked}, x) else 0
    {
      var route := routes[i];
      forall x: nat
        ensures Pending(routes[..i + 1], {picked}, x) ==
                Pending(routes[..i], {picked}, x) + if route.src.node == picked && route.dst.node == x then 1 else 0
        ensures Pending(routes[..i + 1], {picked}, x) <= Pending(routes, live, x)
      {
        PendingNext(routes, i, {picked}, x);
        PendingWithout(routes, live, picked, x);
        PendingPrefix(routes, i + 1, {picked}, x);
      }
      if route.src.node == picked && inDegree[route.dst.node] > 0 {
        inDegree := inDegree[route.dst.node := inDegree[route.dst.node] - 1];
      }
    }
    assert routes[..|routes|] == routes;
    forall x: nat {
      PendingWithout(routes, live, picked, x);
    }
  }

  /** The sort's progress: what is emitted is ordered and nothing unemitted feeds it. */
  ghost predicate Emitted(nodes: seq<nat>, routes: seq<Route>, sorted: seq<nat>) {
    && Distinct(sorted) && Ordered(nodes, routes, sorted)
    && forall x :: x in sorted ==> x in nodes
  }

  lemma EmitReady(nodes: seq<nat>, routes: seq<Route>, sorted: seq<nat>, picked: nat)
    requires Emitted(nodes, routes, sorted) && picked in nodes && picked !in sorted
    requires Pending(routes, Elements(nodes) - Elements(sorted), picked) == 0
    ensures Emitted(nodes, routes, sorted + [picked])
    ensures Elements(nodes) - Elements(sorted + [picked]) == Elements(nodes) - Elements(sorted) - {picked}
  {
    PendingZero(routes, Elements(nodes) - Elements(sorted), picked);
    forall a: nat, j | 0 <= j < |sorted + [picked]| && Feeds(nodes, routes, a, (sorted + [picked])[j])
      ensures a in (sorted + [picked])[..j]
    {
      if j < |sorted| {
        assert (sorted + [picked])[..j] == sorted[..j];
      } else {
        assert (sorted + [picked])[..j] == sorted;
      }
    }
  }

  lemma NothingReady(nodes: seq<nat>, routes: seq<Route>, sorted: seq<nat>, inDegree: seq<nat>)
    requires forall n: nat :: n in nodes ==> n < |inDegree|
    requires Counted(inDegree, nodes, routes, Elements(nodes) - Elements(sorted))
    requires forall n: nat :: n in nodes ==> !Ready(inDegree, sorted, n)
    requires exists n :: n in nodes && n !in sorted
    ensures Cyclic(nodes, routes)
  {
    var live := Elements(nodes) - Elements(sorted);
    forall b | b in live
      ensures FedWithin(nodes, routes, live, b)
    {
      PendingZero(routes, live, b);
      var r :| r in routes && r.src.node in live && r.dst.node == b;
      assert Feeds(nodes, routes, r.src.node, b);
    }
    var n :| n in nodes && n !in sorted;
    assert n in live;
    StuckMeansCyclic(nodes, routes, live);
  }

  lemma DistinctSameLength(a: seq<nat>, b: seq<nat>)
    requires Distinct(a) && Distinct(b) && |a| == |b| && forall x :: x in a ==> x in b
    ensures forall x :: x in b ==> x in a
  {
    forall x | x in b
      ensures x in a
    {
      if x !in a {
        var i :| 0 <= i < |b| && b[i] == x;
        var rest := b[..i] + b[i + 1..];
        DistinctFits(a, Elements(rest));
        ElementsAtMost(rest);
      }
    }
  }

  lemma {:induction false} ElementsAtMost(s: seq<nat>)
    ensures |Elements(s)| <= |s|
  {
    if s != [] {
      ElementsAtMost(s[1..]);
      assert Elements(s) == {s[0]} + Elements(s[1..]);
    } else {
      assert Elements(s) == {};
    }
  }

  /** The first listed node that is neither emitted nor waiting, if there is one. */
  method PickReady(nodes: seq<nat>, inDegree: seq<nat>, sorted: seq<nat>) returns (found: bool, picked: nat)
    requires forall n: nat :: n in nodes ==> n < |inDegree|
    ensures found ==> exists i :: 0 <= i < |nodes| && nodes[i] == picked && Ready(inDegree, sorted, picked) &&
                                  forall k :: 0 <= k < i ==> !Ready(inDegree, sorted, nodes[k])
    ensures !found ==> forall n: nat :: n in nodes ==> !Ready(inDegree, sorted, n)
  {
    found, picked := false, 0;
    for i := 0 to |nodes|
      invariant forall k :: 0 <= k < i ==> !Ready(inDegree, sorted, nodes[k])
    {
      var node := nodes[i];
      assert node in nodes;
      if node !in sorted && inDegree[node] == 0 {
        return true, node;
      }
    }
  }

  predicate Ready(inDegree: seq<nat>, sorted: seq<nat>, node: nat) {
    node !in sorted && node < |inDegree| && inDegree[node] == 0
  }

  /** A list that is ordered already has its own next node ready, and no earlier one. */
  lemma OrderedNext(nodes: seq<nat>, routes: seq<Route>, k: nat)
    requires TopologicalOrder(nodes, routes, nodes) && k < |nodes|
    ensures Pending(routes, Elements(nodes) - Elements(nodes[..k]), nodes[k]) == 0
  {
    var live := Elements(nodes) - Elements(nodes[..k]);
    PendingZero(routes, live, nodes[k]);
    forall r | r in routes && r.src.node in live
      ensures r.dst.node != nodes[k]
    {
      if r.dst.node == nodes[k] {
        assert Feeds(nodes, routes, r.src.node, nodes[k]);
      }
    }
  }

  /**
   Exactly when no cycle runs through the nodes, the result is a topological order of them;
   otherwise the list is returned untouched. A list that is ordered already stays as it is.
   */
  method SortProcessNodes(nodes: seq<nat>, routes: seq<Route>, nodeCount: nat) returns (order: seq<nat>)
    requires Distinct(nodes) && (forall n: nat :: n in nodes ==> n < nodeCount)
    requires forall r :: r in routes ==> r.dst.node < nodeCount
    ensures TopologicalOrder(nodes, routes, order) <==> !Cyclic(nodes, routes)
    ensures Cyclic(nodes, routes) ==> order == nodes
    ensures TopologicalOrder(nodes, routes, nodes) ==> order == nodes
  {
    order := nodes;
    if |nodes| > 1 {
      var inDegree := CountInDegrees(nodes, routes, nodeCount);
      var sorted: seq<nat> := [];
      assert Elements(nodes) - Elements(sorted) == Elements(nodes);
      while |sorted| < |nodes|
        invariant |inDegree| == nodeCount && Emitted(nodes, routes, sorted) && |sorted| <= |nodes|
        invariant Counted(inDegree, nodes, routes, Elements(nodes) - Elements(sorted))
        invariant TopologicalOrder(nodes, routes, nodes) ==> sorted == nodes[..|sorted|]
        decreases |nodes| - |sorted|
      {
        var found, picked := PickReady(nodes, inDegree, sorted);
        if !found {
          SomeLeft(nodes, sorted);
          NothingReady(nodes, routes, sorted, inDegree);
          break;
        }
        EmitReady(nodes, routes, sorted, picked);
        if TopologicalOrder(nodes, routes, nodes) {
          OrderedNext(nodes, routes, |sorted|);
          assert nodes[|sorted|] in nodes && nodes[|sorted|] !in sorted;
          assert Ready(inDegree, sorted, nodes[|sorted|]);
          assert forall k :: 0 <= k < |sorted| ==> nodes[k] == sorted[k];
          assert picked == nodes[|sorted|];
          assert nodes[..|sorted| + 1] == sorted + [picked];
        }
        inDegree := ReleaseRoutes(nodes, routes, inDegree, picked, Elements(nodes) - Elements(sorted));
        sorted := sorted + [picked];
      }
      if |sorted| == |nodes| {
        DistinctSameLength(sorted, nodes);
        order := sorted;
        assert nodes[..|nodes|] == nodes;
      }
    } else {
      ShortOrdered(nodes, routes);
    }
    if TopologicalOrder(nodes, routes, order) {
      OrderExcludesCycle(nodes, routes, order);
    }
  }

  lemma SomeLeft(nodes: seq<nat>, sorted: seq<nat>)
    requires Distinct(nodes) && Distinct(sorted) && |sorted| < |nodes|
    ensures exists n :: n in nodes && n !in sorted
  {
    if forall n :: n in nodes ==> n in sorted {
      DistinctFits(nodes, Elements(sorted));
      ElementsAtMost(sorted);
    }
  }

  lemma ShortOrdered(nodes: seq<nat>, routes: seq<Route>)
    requires |nodes| <= 1
    ensures Cyclic(nodes, routes) || TopologicalOrder(nodes, routes, nodes)
  {
    if !Ordered(nodes, routes, nodes) {
      var a: nat, j :| 0 <= j < |nodes| && Feeds(nodes, routes, a, nodes[j]) && a !in nodes[..j];
      assert Cycle(nodes, routes, [a, a]);
    }
  }

  // ------------------------------------------------------------------------------------------
  // The route index: a stable counting sort by source node.

  function Below(n: nat): (s: set<nat>)
    ensures forall k: nat :: k in s <==> k < n
  {
    if n == 0 then {} else Below(n - 1) + {n - 1}
  }

  lemma {:induction false} CountUnion(routes: seq<Route>, a: set<nat>, b: set<nat>)
    requires a !! b
    ensures |RoutesFrom(routes, a + b)| == |RoutesFrom(routes, a)| + |RoutesFrom(routes, b)|
  {
    if routes != [] {
      CountUnion(routes[..|routes| - 1], a, b);
    }
  }

  lemma CountBelow(routes: seq<Route>, n: nat)
    ensures |RoutesFrom(routes, Below(n + 1))| == |RoutesFrom(routes, Below(n))| + |RoutesFrom(routes, {n})|
  {
    assert Below(n + 1) == Below(n) + {n};
    CountUnion(routes, Below(n), {n});
  }

  lemma {:induction false} CountAtMost(routes: seq<Route>, from: set<nat>)
    ensures |RoutesFrom(routes, from)| <= |routes|
  {
    if routes != [] {
      CountAtMost(routes[..|routes| - 1], from);
    }
  }

  lemma {:induction false} CountMonotone(routes: seq<Route>, m: nat, n: nat)
    requires m <= n
    ensures |RoutesFrom(routes, Below(m))| <= |RoutesFrom(routes, Below(n))|
    decreases n - m
  {
    if m < n {
      CountMonotone(routes, m + 1, n);
      CountBelow(routes, m);
    }
  }

  lemma RoutesFromNext(routes: seq<Route>, i: nat, from: set<nat>)
    requires i < |routes|
    ensures RoutesFrom(routes[..i + 1], from) == RoutesFrom(routes[..i], from) + if routes[i].src.node in from then [routes[i]] else []
    ensures |RoutesFrom(routes[..i + 1], from)| <= |RoutesFrom(routes, from)|
  {
    assert routes[..i + 1][..i] == routes[..i];
    assert routes[..i + 1] + routes[i + 1..] == routes;
    RoutesFromAppend(routes[..i + 1], routes[i + 1..], from);
  }

  /** Where each node's group begins in the index. */
  ghost predicate Starts(start: seq<nat>, routes: seq<Route>) {
    forall n :: 0 <= n < |start| ==> start[n] == |RoutesFrom(routes, Below(n))|
  }

  lemma GroupsDisjoint(start: seq<nat>, routes: seq<Route>, m: nat, n: nat)
    requires Starts(start, routes) && m < n < |start|
    ensures start[m] + |RoutesFrom(routes, {m})| <= start[n]
  {
    CountBelow(routes, m);
    CountMonotone(routes, m + 1, n);
  }

  lemma GroupFits(start: seq<nat>, routes: seq<Route>, n: nat)
    requires Starts(start, routes) && n < |start|
    ensures start[n] + |RoutesFrom(routes, {n})| <= |routes|
  {
    CountBelow(routes, n);
    CountAtMost(routes, Below(n + 1));
  }

  method GroupLengths(routes: seq<Route>, nodeCount: nat) returns (len: seq<nat>)
    requires |routes| <= MAX_EDGES
    ensures |len| == nodeCount && forall n :: 0 <= n < nodeCount ==> len[n] == |RoutesFrom(routes, {n})|
  {
    hide RoutesFrom;
    len := seq(nodeCount, _ => 0);
    NoneYet(routes);
    for i := 0 to |routes|
      invariant |len| == nodeCount
      invariant forall n :: 0 <= n < nodeCount ==> len[n] == |RoutesFrom(routes[..i], {n})|
    {
      var route := routes[i];
      forall n: nat
        ensures |RoutesFrom(routes[..i + 1], {n})| == |RoutesFrom(routes[..i], {n})| + if route.src.node == n then 1 else 0
        ensures |RoutesFrom(routes[..i], {n})| <= i
      {
        RoutesFromNext(routes, i, {n});
        CountAtMost(routes[..i], {n});
      }
      if route.src.node < nodeCount && len[route.src.node] < MAX_EDGES {
        len := len[route.src.node := len[route.src.node] + 1];
      }
    }
    assert routes[..|routes|] == routes;
  }

  lemma NoneYet(routes: seq<Route>)
    ensures forall n: nat :: |RoutesFrom(routes[..0], {n})| == 0
  {
  }

  method GroupStarts(routes: seq<Route>, nodeCount: nat) returns (start: seq<nat>, len: seq<nat>)
    requires |routes| <= MAX_EDGES
    ensures |start| == |len| == nodeCount && Starts(start, routes)
    ensures forall n :: 0 <= n < nodeCount ==> len[n] == |RoutesFrom(routes, {n})|
  {
    hide RoutesFrom;
    len := GroupLengths(routes, nodeCount);
    start := [];
    var offset: nat := 0;
    assert Below(0) == {};
    RoutesFromNone(routes);
    for node := 0 to nodeCount
      invariant |start| == node && Starts(start, routes) && offset == |RoutesFrom(routes, Below(node))|
    {
      CountBelow(routes, node);
      start := start + [offset];
      offset := offset + len[node];
    }
  }

  lemma {:induction false} RoutesFromNone(routes: seq<Route>)
    ensures RoutesFrom(routes, {}) == []
  {
    if routes != [] {
      RoutesFromNone(routes[..|routes| - 1]);
    }
  }

  /** Each node's slice of the index is the list of its routes, in their original order. */
  method BuildProcessRouteIndex(routes: seq<Route>, nodeCount: nat)
    returns (start: seq<nat>, len: seq<nat>, bySrc: seq<Route>)
    requires |routes| <= MAX_EDGES
    ensures |start| == |len| == nodeCount && |bySrc| == MAX_EDGES
    ensures forall n :: 0 <= n < nodeCount ==>
              start[n] + len[n] <= MAX_EDGES && bySrc[start[n]..start[n] + len[n]] == RoutesFrom(routes, {n})
  {
    hide RoutesFrom, Starts;
    start, len := GroupStarts(routes, nodeCount);
    bySrc := seq(MAX_EDGES, _ => Route(Port(0, 0), Port(0, 0)));
    var cursor: seq<nat> := start;
    AllFilledStart(routes, start, bySrc);
    for i := 0 to |routes|
      invariant |bySrc| == MAX_EDGES && |cursor| == nodeCount
      invariant AllFilled(routes, i, start, cursor, bySrc)
    {
      var route := routes[i];
      AllFilledStep(routes, i, start, cursor, bySrc);
      if route.src.node < nodeCount {
        var src := route.src.node;
        var write := cursor[src];
        if write < MAX_EDGES {
          bySrc := bySrc[write := route];
          cursor := cursor[src := write + 1];
        }
      }
    }
    AllFilledEnd(routes, start, cursor, bySrc);
  }

  ghost predicate Filled(routes: seq<Route>, i: nat, start: seq<nat>, cursor: seq<nat>, bySrc: seq<Route>, n: nat)
    requires i <= |routes| && n < |start| == |cursor|
  {
    start[n] <= cursor[n] <= |bySrc| && bySrc[start[n]..cursor[n]] == RoutesFrom(routes[..i], {n})
  }

  /** The route about to be written still has a free place in its node's group. */
  lemma FilledRoom(routes: seq<Route>, i: nat, start: seq<nat>, cursor: seq<nat>, bySrc: seq<Route>)
    requires i < |routes| <= |bySrc| && routes[i].src.node < |start| == |cursor| && Starts(start, routes)
    requires Filled(routes, i, start, cursor, bySrc, routes[i].src.node)
    ensures var src := routes[i].src.node;
            cursor[src] < start[src] + |RoutesFrom(routes, {src})| <= |routes|
  {
    var src := routes[i].src.node;
    RoutesFromNext(routes, i, {src});
    GroupFits(start, routes, src);
  }

  lemma FilledStep(routes: seq<Route>, i: nat, start: seq<nat>, cursor: seq<nat>, bySrc: seq<Route>, n: nat)
    requires i < |routes| <= |bySrc| && n < |start| == |cursor| && Starts(start, routes)
    requires Filled(routes, i, start, cursor, bySrc, n)
    requires routes[i].src.node < |start| ==> Filled(routes, i, start, cursor, bySrc, routes[i].src.node)
    ensures FilledAfter(routes, i, start, cursor, bySrc, n)
  {
    hide RoutesFrom;
    var src := routes[i].src.node;
    RoutesFromNext(routes, i, {n});
    if src < |start| {
      FilledRoom(routes, i, start, cursor, bySrc);
      var bySrc', write := bySrc[cursor[src] := routes[i]], cursor[src];
      if n == src {
        assert bySrc'[start[n]..write + 1] == bySrc[start[n]..write] + [routes[i]];
      } else {
        RoutesFromPrefix(routes, i, {n});
        if n < src {
          GroupsDisjoint(start, routes, n, src);
        } else {
          GroupsDisjoint(start, routes, src, n);
        }
        assert bySrc'[start[n]..cursor[n]] == bySrc[start[n]..cursor[n]];
      }
    }
  }

  lemma RoutesFromPrefix(routes: seq<Route>, i: nat, from: set<nat>)
    requires i <= |routes|
    ensures |RoutesFrom(routes[..i], from)| <= |RoutesFrom(routes, from)|
  {
    assert routes[..i] + routes[i..] == routes;
    RoutesFromAppend(routes[..i], routes[i..], from);
  }

  ghost predicate AllFilled(routes: seq<Route>, i: nat, start: seq<nat>, cursor: seq<nat>, bySrc: seq<Route>)
    requires i <= |routes| && |start| == |cursor|
  {
    forall n :: 0 <= n < |start| ==> Filled(routes, i, start, cursor, bySrc, n)
  }

  lemma AllFilledStep(routes: seq<Route>, i: nat, start: seq<nat>, cursor: seq<nat>, bySrc: seq<Route>)
    requires i < |routes| <= |bySrc| && |start| == |cursor| && Starts(start, routes)
    requires AllFilled(routes, i, start, cursor, bySrc)
    ensures var src := routes[i].src.node;
            if src < |start| then
              cursor[src] < |bySrc| && AllFilled(routes, i + 1, start, cursor[src := cursor[src] + 1], bySrc[cursor[src] := routes[i]])
            else AllFilled(routes, i + 1, start, cursor, bySrc)
  {
    forall n | 0 <= n < |start|
      ensures FilledAfter(routes, i, start, cursor, bySrc, n)
    {
      FilledStep(routes, i, start, cursor, bySrc, n);
    }
    var src, next := routes[i].src.node, i + 1;
    if src < |start| {
      assert FilledAfter(routes, i, start, cursor, bySrc, src);
      var cursor', bySrc' := cursor[src := cursor[src] + 1], bySrc[cursor[src] := routes[i]];
      forall n | 0 <= n < |start|
        ensures Filled(routes, next, start, cursor', bySrc', n)
      {
        assert FilledAfter(routes, i, start, cursor, bySrc, n);
      }
    } else {
      forall n | 0 <= n < |start|
        ensures Filled(routes, next, start, cursor, bySrc, n)
      {
        assert FilledAfter(routes, i, start, cursor, bySrc, n);
      }
    }
  }

  ghost predicate FilledAfter(routes: seq<Route>, i: nat, start: seq<nat>, cursor: seq<nat>, bySrc: seq<Route>, n: nat)
    requires i < |routes| && n < |start| == |cursor|
  {
    var src := routes[i].src.node;
    if src < |start| then
      cursor[src] < |bySrc| && Filled(routes, i + 1, start, cursor[src := cursor[src] + 1], bySrc[cursor[src] := routes[i]], n)
    else Filled(routes, i + 1, start, cursor, bySrc, n)
  }

  lemma AllFilledStart(routes: seq<Route>, start: seq<nat>, bySrc: seq<Route>)
    requires Starts(start, routes) && |routes| <= |bySrc|
    ensures AllFilled(routes, 0, start, start, bySrc)
  {
    forall n | 0 <= n < |start|
      ensures Filled(routes, 0, start, start, bySrc, n)
    {
      GroupFits(start, routes, n);
      assert routes[..0] == [];
    }
  }

  lemma AllFilledEnd(routes: seq<Route>, start: seq<nat>, cursor: seq<nat>, bySrc: seq<Route>)
    requires |start| == |cursor| && AllFilled(routes, |routes|, start, cursor, bySrc)
    ensures forall n :: 0 <= n < |start| ==>
              cursor[n] == start[n] + |RoutesFrom(routes, {n})| <= |bySrc| && bySrc[start[n]..cursor[n]] == RoutesFrom(routes, {n})
  {
    assert routes[..|routes|] == routes;
    forall n | 0 <= n < |start|
      ensures cursor[n] == start[n] + |RoutesFrom(routes, {n})| <= |bySrc| && bySrc[start[n]..cursor[n]] == RoutesFrom(routes, {n})
    {
      assert Filled(routes, |routes|, start, cursor, bySrc, n);
    }
  }
}
