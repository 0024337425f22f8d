/** Names, declared edges and walks: the vocabulary in which every result about
    graph compilation is stated.  A relation is a finite set of edges; `Reaches`
    is its reflexive-transitive closure, given by an explicit walk. */
module Walks {
  import opened Sequences

  type Name = string

  // The two sentinel node names (constants.py).
  const START: Name := "__start__"
  const END: Name := "__end__"

  datatype Edge = Edge(source: Name, target: Name)

  ghost predicate IsWalk(R: set<Edge>, p: seq<Name>) {
    && |p| >= 1
    && forall i :: 0 <= i < |p| - 1 ==> Edge(p[i], p[i + 1]) in R
  }

  ghost predicate WalkFromTo(R: set<Edge>, p: seq<Name>, u: Name, v: Name) {
    IsWalk(R, p) && p[0] == u && p[|p| - 1] == v
  }

  ghost predicate Reaches(R: set<Edge>, u: Name, v: Name) {
    exists p :: WalkFromTo(R, p, u, v)
  }

  /** A closed walk of at least one edge. */
  ghost predicate IsCycle(R: set<Edge>, c: seq<Name>) {
    IsWalk(R, c) && |c| >= 2 && c[0] == c[|c| - 1]
  }

  ghost predicate ClosedUnder(R: set<Edge>, S: set<Name>) {
    forall e :: e in R && e.source in S ==> e.target in S
  }

  function Reverse(R: set<Edge>): set<Edge> {
    set e | e in R :: Edge(e.target, e.source)
  }

  lemma ReachesRefl(R: set<Edge>, u: Name)
    ensures Reaches(R, u, u)
  {
    assert WalkFromTo(R, [u], u, u);
  }

  lemma ReachesEdge(R: set<Edge>, u: Name, v: Name)
    requires Edge(u, v) in R
    ensures Reaches(R, u, v)
  {
    assert WalkFromTo(R, [u, v], u, v);
  }

  lemma ReachesTrans(R: set<Edge>, u: Name, v: Name, w: Name)
    requires Reaches(R, u, v) && Reaches(R, v, w)
    ensures Reaches(R, u, w)
  {
    var p :| WalkFromTo(R, p, u, v);
    var q :| WalkFromTo(R, q, v, w);
    var pq := p + q[1..];
    forall i | 0 <= i < |pq| - 1
      ensures Edge(pq[i], pq[i + 1]) in R
    {
      if i < |p| - 1 {
        assert Edge(p[i], p[i + 1]) in R;
      } else {
        var k := i - (|p| - 1);
        assert pq[i] == q[k] && pq[i + 1] == q[k + 1];
        assert Edge(q[k], q[k + 1]) in R;
      }
    }
    assert WalkFromTo(R, pq, u, w);
  }

  lemma ReachesSubset(R: set<Edge>, R': set<Edge>, u: Name, v: Name)
    requires R <= R' && Reaches(R, u, v)
    ensures Reaches(R', u, v)
  {
    var p :| WalkFromTo(R, p, u, v);
    forall i | 0 <= i < |p| - 1
      ensures Edge(p[i], p[i + 1]) in R'
    {
      assert Edge(p[i], p[i + 1]) in R;
    }
    assert WalkFromTo(R', p, u, v);
  }

  lemma WalkStaysInside(R: set<Edge>, S: set<Name>, p: seq<Name>, i: nat)
    requires IsWalk(R, p) && ClosedUnder(R, S) && p[0] in S && i < |p|
    ensures p[i] in S
  {
    if i > 0 {
      WalkStaysInside(R, S, p, i - 1);
      assert Edge(p[i - 1], p[i - 1 + 1]) in R;
    }
  }

  lemma ClosedContainsReachable(R: set<Edge>, S: set<Name>, u: Name, v: Name)
    requires ClosedUnder(R, S) && u in S && Reaches(R, u, v)
    ensures v in S
  {
    var p :| WalkFromTo(R, p, u, v);
    WalkStaysInside(R, S, p, |p| - 1);
  }

  function Backwards(p: seq<Name>): seq<Name> {
    seq(|p|, i requires 0 <= i < |p| => p[|p| - 1 - i])
  }

  lemma ReverseWalk(R: set<Edge>, u: Name, v: Name)
    requires Reaches(Reverse(R), u, v)
    ensures Reaches(R, v, u)
  {
    var p :| WalkFromTo(Reverse(R), p, u, v);
    var q := Backwards(p);
    forall i | 0 <= i < |q| - 1
      ensures Edge(q[i], q[i + 1]) in R
    {
      var k := |p| - 2 - i;
      assert q[i] == p[k + 1] && q[i + 1] == p[k];
      assert Edge(p[k], p[k + 1]) in Reverse(R);
    }
    assert WalkFromTo(R, q, v, u);
  }

  /** Walking the reversed relation forwards is walking the relation backwards. */
  lemma ReverseReaches(R: set<Edge>, u: Name, v: Name)
    ensures Reaches(Reverse(R), u, v) <==> Reaches(R, v, u)
  {
    if Reaches(Reverse(R), u, v) {
      ReverseWalk(R, u, v);
    }
    if Reaches(R, v, u) {
      assert Reverse(Reverse(R)) == R by {
        forall e | e in R
          ensures e in Reverse(Reverse(R))
        {
          assert Edge(e.target, e.source) in Reverse(R);
        }
      }
      ReverseWalk(Reverse(R), v, u);
    }
  }

  // ---- Adjacency dictionaries ----

  type Adjacency = map<Name, set<Name>>

  /** `adj` is exactly the relation `R` written as a dictionary over its keys. */
  ghost predicate Represents(adj: Adjacency, R: set<Edge>) {
    && (forall u, v :: Edge(u, v) in R <==> u in adj && v in adj[u])
    && (forall e :: e in R ==> e.target in adj)
  }

  ghost predicate ReachedFrom(R: set<Edge>, seeds: set<Name>, v: Name) {
    exists s :: s in seeds && Reaches(R, s, v)
  }

  lemma ReachedFromStep(R: set<Edge>, seeds: set<Name>, u: Name, v: Name)
    requires ReachedFrom(R, seeds, u) && Edge(u, v) in R
    ensures ReachedFrom(R, seeds, v)
  {
    var s :| s in seeds && Reaches(R, s, u);
    ReachesEdge(R, u, v);
    ReachesTrans(R, s, u, v);
  }

  function EdgesFrom(edges: seq<Edge>, source: Name): (r: seq<Edge>)
    ensures forall e :: e in r <==> e in edges && e.source == source
  {
    if edges == [] then []
    else
      assert forall e :: e in edges <==> e == edges[0] || e in edges[1..];
      if edges[0].source == source then [edges[0]] + EdgesFrom(edges[1..], source)
      else EdgesFrom(edges[1..], source)
  }

  /** The edge at `k` is the only one that leaves the node. */
  ghost predicate SoleFrom(edges: seq<Edge>, source: Name, k: int) {
    && 0 <= k < |edges| && edges[k].source == source
    && forall j :: 0 <= j < |edges| && edges[j].source == source ==> j == k
  }

  lemma {:induction false} SoleEdge(edges: seq<Edge>, source: Name) returns (k: int)
    requires |EdgesFrom(edges, source)| == 1
    ensures SoleFrom(edges, source, k) && edges[k] == EdgesFrom(edges, source)[0]
  {
    if edges[0].source == source {
      k := 0;
      assert forall j :: 0 < j < |edges| ==> edges[j] in edges[1..];
      assert forall e :: e in edges[1..] && e.source == source ==> e in EdgesFrom(edges[1..], source);
    } else {
      k := SoleEdge(edges[1..], source);
      k := k + 1;
      assert forall j :: 0 < j < |edges| ==> edges[j] == edges[1..][j - 1];
    }
  }

  lemma {:induction false} NoneFrom(edges: seq<Edge>, source: Name)
    requires forall e :: e in edges ==> e.source != source
    ensures EdgesFrom(edges, source) == []
  {
    if edges != [] {
      assert edges[0] in edges && forall e :: e in edges[1..] ==> e in edges;
      NoneFrom(edges[1..], source);
    }
  }

  lemma {:induction false} SoleIsFrom(edges: seq<Edge>, source: Name, k: int)
    requires SoleFrom(edges, source, k)
    ensures EdgesFrom(edges, source) == [edges[k]]
  {
    if k == 0 {
      forall e | e in edges[1..]
        ensures e.source != source
      {
        var j :| 0 <= j < |edges[1..]| && edges[1..][j] == e;
        assert edges[j + 1] == e;
      }
      NoneFrom(edges[1..], source);
    } else {
      SoleIsFrom(edges[1..], source, k - 1);
    }
  }

  lemma {:induction false} OneFrom(edges: seq<Edge>, source: Name) returns (i: int)
    requires EdgesFrom(edges, source) != []
    ensures 0 <= i < |edges| && edges[i].source == source
  {
    if edges[0].source == source {
      i := 0;
    } else {
      i := OneFrom(edges[1..], source);
      i := i + 1;
    }
  }

  lemma {:induction false} TwoFrom(edges: seq<Edge>, source: Name) returns (i: int, j: int)
    requires |EdgesFrom(edges, source)| > 1
    ensures 0 <= i < j < |edges| && edges[i].source == source && edges[j].source == source
  {
    if edges[0].source == source {
      i := 0;
      j := OneFrom(edges[1..], source);
      j := j + 1;
    } else {
      i, j := TwoFrom(edges[1..], source);
      i, j := i + 1, j + 1;
    }
  }

  function EdgesTo(edges: seq<Edge>, target: Name): (r: seq<Edge>)
    ensures forall e :: e in r <==> e in edges && e.target == target
  {
    if edges == [] then []
    else
      assert forall e :: e in edges <==> e == edges[0] || e in edges[1..];
      if edges[0].target == target then [edges[0]] + EdgesTo(edges[1..], target)
      else EdgesTo(edges[1..], target)
  }

  /** The edges both of whose endpoints are in `names`. */
  function EdgesWithin(edges: seq<Edge>, names: set<Name>): set<Edge> {
    set e | e in edges && e.source in names && e.target in names
  }

  method BuildForward(edges: seq<Edge>, names: set<Name>) returns (adj: Adjacency)
    ensures adj.Keys == names
    ensures Represents(adj, EdgesWithin(edges, names))
  {
    adj := map n | n in names :: {};
    for i := 0 to |edges|
      invariant adj.Keys == names
      invariant forall u, v :: u in names ==> (v in adj[u] <==> Edge(u, v) in EdgesWithin(edges[..i], names))
    {
      var edge := edges[i];
      assert edges[..i + 1] == edges[..i] + [edge];
      if edge.source in names && edge.target in names {
        adj := adj[edge.source := adj[edge.source] + {edge.target}];
      }
    }
    assert edges[..|edges|] == edges;
  }

  method BuildReverse(edges: seq<Edge>, names: set<Name>) returns (adj: Adjacency)
    ensures adj.Keys == names
    ensures Represents(adj, Reverse(EdgesWithin(edges, names)))
  {
    adj := map n | n in names :: {};
    for i := 0 to |edges|
      invariant adj.Keys == names
      invariant forall u, v :: v in names ==> (u in adj[v] <==> Edge(u, v) in EdgesWithin(edges[..i], names))
    {
      var edge := edges[i];
      assert edges[..i + 1] == edges[..i] + [edge];
      if edge.source in names && edge.target in names {
        adj := adj[edge.target := adj[edge.target] + {edge.source}];
      }
    }
    assert edges[..|edges|] == edges;
  }

  /** The inner loop of both searches: append the neighbours not yet visited. */
  method EnqueueUnvisited(neighbors: set<Name>, visited: set<Name>, queue: seq<Name>) returns (longer: seq<Name>)
    ensures Elements(longer) == Elements(queue) + (neighbors - visited)
  {
    longer := queue;
    var rest := neighbors;
    while rest != {}
      invariant rest <= neighbors
      invariant Elements(longer) == Elements(queue) + (neighbors - rest - visited)
    {
      var neighbor :| neighbor in rest;
      rest := rest - {neighbor};
      if neighbor !in visited {
        ElementsSnoc(longer, neighbor);
        longer := longer + [neighbor];
      }
    }
  }

  /** The invariant of a frontier search: everything met is reached from the
      seeds, and an edge leaving a visited node leads to a node already met. */
  ghost predicate Frontier(R: set<Edge>, seeds: set<Name>, visited: set<Name>, queue: set<Name>) {
    && seeds <= visited + queue
    && (forall v :: v in visited + queue ==> ReachedFrom(R, seeds, v))
    && (forall e :: e in R && e.source in visited ==> e.target in visited + queue)
  }

  lemma FrontierStep(R: set<Edge>, seeds: set<Name>, visited: set<Name>, queue: set<Name>,
                     current: Name, neighbors: set<Name>, rest: set<Name>)
    requires Frontier(R, seeds, visited, queue) && current in queue
    requires queue - {current} <= rest <= queue
    requires forall v :: v in neighbors <==> Edge(current, v) in R
    ensures Frontier(R, seeds, visited + {current}, rest + (neighbors - (visited + {current})))
  {
    forall v | v in neighbors
      ensures ReachedFrom(R, seeds, v)
    {
      ReachedFromStep(R, seeds, current, v);
    }
    forall e | e in R && e.source == current
      ensures e.target in neighbors
    {
      assert e == Edge(current, e.target);
    }
  }

  lemma FrontierDone(R: set<Edge>, seeds: set<Name>, visited: set<Name>)
    requires Frontier(R, seeds, visited, {})
    ensures forall v :: v in visited <==> ReachedFrom(R, seeds, v)
  {
    forall v | ReachedFrom(R, seeds, v)
      ensures v in visited
    {
      var s :| s in seeds && Reaches(R, s, v);
      ClosedContainsReachable(R, visited, s, v);
    }
    assert forall v :: v in visited ==> v in visited + {};
  }

  lemma FrontierStart(R: set<Edge>, seeds: set<Name>)
    ensures Frontier(R, seeds, {}, seeds)
  {
    forall s | s in seeds
      ensures ReachedFrom(R, seeds, s)
    {
      ReachesRefl(R, s);
    }
  }

  /** The breadth-first loop shared by the validator and the builder: nodes are
      marked when they leave the queue, so the queue may hold duplicates
      (topology_validator.py:177-186, graph.py:303-312). */
  method Bfs(adj: Adjacency, seeds: seq<Name>, ghost R: set<Edge>) returns (visited: set<Name>)
    requires Represents(adj, R)
    requires forall s :: s in seeds ==> s in adj
    ensures forall v :: v in visited <==> ReachedFrom(R, Elements(seeds), v)
  {
    visited := {};
    var queue := seeds;
    FrontierStart(R, Elements(seeds));
    while queue != []
      invariant visited <= adj.Keys && Elements(queue) <= adj.Keys
      invariant Frontier(R, Elements(seeds), visited, Elements(queue))
      decreases adj.Keys - visited, |queue|
    {
      var current := queue[0];
      ghost var before := queue;
      queue := queue[1..];
      ElementsUncons(before);
      if current !in visited {
        FrontierStep(R, Elements(seeds), visited, Elements(before), current, adj[current], Elements(queue));
        visited := visited + {current};
        queue := EnqueueUnvisited(adj[current], visited, queue);
      }
    }
    assert Elements(queue) == {};
    FrontierDone(R, Elements(seeds), visited);
  }

  lemma MarkStep(R: set<Edge>, seeds: set<Name>, marked: set<Name>, queue: set<Name>,
                 current: Name, neighbors: set<Name>, rest: set<Name>)
    requires queue <= marked && current in queue
    requires Frontier(R, seeds, marked - queue, queue)
    requires queue - {current} <= rest <= queue
    requires forall v :: v in neighbors <==> Edge(current, v) in R
    ensures Frontier(R, seeds, marked - rest, rest + (neighbors - marked))
  {
    forall v | v in neighbors
      ensures ReachedFrom(R, seeds, v)
    {
      assert current in marked - queue + queue;
      ReachedFromStep(R, seeds, current, v);
    }
    forall e | e in R && e.source in marked - rest
      ensures e.target in marked + neighbors
    {
      if e.source == current {
        assert e == Edge(current, e.target);
      }
    }
    assert forall v :: v in marked ==> v in marked - queue + queue;
  }

  /** The inner loop of the builder's reverse search: mark and queue together. */
  method MarkPredecessors(predecessors: set<Name>, nodes: set<Name>, marked: set<Name>, queue: seq<Name>)
    returns (visited: set<Name>, longer: seq<Name>)
    ensures visited == marked + predecessors * nodes
    ensures Elements(longer) == Elements(queue) + (predecessors * nodes - marked)
    ensures visited == marked ==> longer == queue
  {
    visited, longer := marked, queue;
    var rest := predecessors;
    while rest != {}
      invariant rest <= predecessors
      invariant visited == marked + (predecessors - rest) * nodes
      invariant Elements(longer) == Elements(queue) + ((predecessors - rest) * nodes - marked)
      invariant visited == marked ==> longer == queue
    {
      var predecessor :| predecessor in rest;
      rest := rest - {predecessor};
      if predecessor in nodes && predecessor !in visited {
        visited := visited + {predecessor};
        ElementsSnoc(longer, predecessor);
        longer := longer + [predecessor];
      }
    }
  }

  /** The builder's reverse search marks a node when it enters the queue, so each
      node is queued once; an absent key of the dictionary has no predecessors
      (graph.py:327-334). */
  method BfsMarkingOnEnqueue(adj: Adjacency, nodes: set<Name>, seed: Name, ghost R: set<Edge>)
    returns (visited: set<Name>)
    requires forall u, v :: Edge(u, v) in R <==> u in adj && v in adj[u]
    requires forall e :: e in R ==> e.target in nodes
    requires seed in nodes
    ensures forall v :: v in visited <==> Reaches(R, seed, v)
  {
    visited := {seed};
    var queue := [seed];
    FrontierStart(R, {seed});
    assert Elements(queue) == {seed};
    assert visited - Elements(queue) == {};
    while queue != []
      invariant visited <= nodes && Elements(queue) <= visited
      invariant Frontier(R, {seed}, visited - Elements(queue), Elements(queue))
      decreases nodes - visited, |queue|
    {
      var current := queue[0];
      var predecessors := if current in adj then adj[current] else {};
      assert forall v :: v in predecessors ==> Edge(current, v) in R;
      assert predecessors * nodes == predecessors;
      ghost var before, marked := queue, visited;
      ElementsUncons(before);
      queue := queue[1..];
      MarkStep(R, {seed}, marked, Elements(before), current, predecessors, Elements(queue));
      ghost var rest := Elements(queue);
      visited, queue := MarkPredecessors(predecessors, nodes, visited, queue);
      assert visited - Elements(queue) == marked - rest;
    }
    assert visited - Elements(queue) == visited;
    assert Elements(queue) == {};
    FrontierDone(R, {seed}, visited);
    assert forall v :: ReachedFrom(R, {seed}, v) <==> Reaches(R, seed, v) by {
      assert seed in {seed};
    }
  }
}
