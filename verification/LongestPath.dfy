/** The longest simple START-to-END path (topology_validator.py:253-299).
    `PathSearch.Dfs` is the recursive search with its path-visited set and its
    running maximum; it is proved exhaustive over simple paths. */
module LongestPath {
  import opened Sequences
  import opened Walks

  /** `q` is a simple path from `node` to a terminal node that avoids `avoid`
      after its first node. */
  ghost predicate Extension(R: set<Edge>, terminal: set<Name>, avoid: set<Name>, node: Name, q: seq<Name>) {
    && IsWalk(R, q)
    && q[0] == node
    && q[|q| - 1] in terminal
    && Distinct(q)
    && forall i :: 1 <= i < |q| ==> q[i] !in avoid
  }

  /** The search went through `done`, the neighbours of `node` tried so far:
      `best` is `before` or the length of an extension, and no extension through
      a tried neighbour is longer. */
  ghost predicate Covers(R: set<Edge>, terminal: set<Name>, avoid: set<Name>, node: Name, depth: nat,
                         done: set<Name>, before: nat, best: nat)
  {
    && best >= before
    && (best == before || exists q :: Extension(R, terminal, avoid, node, q) && best == depth + |q|)
    && (forall q :: Extension(R, terminal, avoid, node, q) && (|q| == 1 || q[1] in done) ==> depth + |q| <= best)
  }

  lemma TailExtends(R: set<Edge>, terminal: set<Name>, avoid: set<Name>, node: Name, q: seq<Name>)
    requires Extension(R, terminal, avoid, node, q) && |q| >= 2
    ensures Edge(node, q[1]) in R && q[1] !in avoid
    ensures Extension(R, terminal, avoid + {q[1]}, q[1], q[1..])
  {
    assert Edge(q[0], q[0 + 1]) in R;
    var t := q[1..];
    forall i | 0 <= i < |t| - 1
      ensures Edge(t[i], t[i + 1]) in R
    {
      assert Edge(q[i + 1], q[i + 1 + 1]) in R;
    }
  }

  /** One more neighbour tried: what the recursive call covered from the
      neighbour is covered from the node. */
  lemma CoverNeighbor(R: set<Edge>, terminal: set<Name>, avoid: set<Name>, node: Name, depth: nat,
                      done: set<Name>, neighbor: Name, all: set<Name>, before: nat, mid: nat, best: nat)
    requires node in avoid && Edge(node, neighbor) in R && neighbor !in avoid
    requires Covers(R, terminal, avoid, node, depth, done, before, mid)
    requires forall v :: Edge(neighbor, v) in R ==> v in all
    requires Covers(R, terminal, avoid + {neighbor}, neighbor, depth + 1, all, mid, best)
    ensures Covers(R, terminal, avoid, node, depth, done + {neighbor}, before, best)
  {
    forall q | Extension(R, terminal, avoid, node, q) && (|q| == 1 || q[1] in done + {neighbor})
      ensures depth + |q| <= best
    {
      if |q| > 1 && q[1] == neighbor {
        TailExtends(R, terminal, avoid, node, q);
        if |q[1..]| > 1 {
          TailExtends(R, terminal, avoid + {neighbor}, neighbor, q[1..]);
        }
      }
    }
    if best != mid {
      var t :| Extension(R, terminal, avoid + {neighbor}, neighbor, t) && best == depth + 1 + |t|;
      assert best == depth + |[node] + t|;
    }
  }

  /** A neighbour already on the path contributes nothing. */
  lemma CoverSkipped(R: set<Edge>, terminal: set<Name>, avoid: set<Name>, node: Name, depth: nat,
                     done: set<Name>, neighbor: Name, before: nat, best: nat)
    requires neighbor in avoid
    requires Covers(R, terminal, avoid, node, depth, done, before, best)
    ensures Covers(R, terminal, avoid, node, depth, done + {neighbor}, before, best)
  {
  }

  class PathSearch {
    const forwardAdj: Adjacency
    const terminal: set<Name>
    var pathVisited: set<Name>
    var maxPathEdges: nat

    constructor (forwardAdj: Adjacency, terminal: set<Name>, entry: Name)
      ensures this.forwardAdj == forwardAdj && this.terminal == terminal
      ensures pathVisited == {entry} && maxPathEdges == 0
    {
      this.forwardAdj := forwardAdj;
      this.terminal := terminal;
      pathVisited := {entry};
      maxPathEdges := 0;
    }

    function Neighbors(node: Name): set<Name> {
      if node in forwardAdj then forwardAdj[node] else {}
    }

    /** Each branch restores the path-visited set; the recursion is bounded by
        the nodes off the current path. */
    method Dfs(node: Name, depthSoFar: nat, ghost R: set<Edge>)
      requires Represents(forwardAdj, R)
      requires node in pathVisited
      modifies this
      ensures pathVisited == old(pathVisited)
      ensures Covers(R, terminal, pathVisited, node, depthSoFar, Neighbors(node), old(maxPathEdges), maxPathEdges)
      decreases forwardAdj.Keys - pathVisited
    {
      ghost var path := pathVisited;
      ghost var before := maxPathEdges;
      if node in terminal {
        var total := depthSoFar + 1;
        assert Extension(R, terminal, path, node, [node]);
        if total > maxPathEdges {
          maxPathEdges := total;
          assert maxPathEdges == depthSoFar + |[node]|;
        }
      }
      var rest := Neighbors(node);
      assert Neighbors(node) - rest == {};
      while rest != {}
        invariant rest <= Neighbors(node)
        invariant pathVisited == path
        invariant Covers(R, terminal, path, node, depthSoFar, Neighbors(node) - rest, before, maxPathEdges)
        decreases rest
      {
        var neighbor :| neighbor in rest;
        ghost var done := Neighbors(node) - rest;
        assert Edge(node, neighbor) in R;
        if neighbor !in pathVisited {
          ghost var mid := maxPathEdges;
          pathVisited := pathVisited + {neighbor};
          assert neighbor in forwardAdj.Keys - path;
          Dfs(neighbor, depthSoFar + 1, R);
          CoverNeighbor(R, terminal, path, node, depthSoFar, done, neighbor, Neighbors(neighbor),
                        before, mid, maxPathEdges);
          pathVisited := pathVisited - {neighbor};
          assert pathVisited == path;
        } else {
          CoverSkipped(R, terminal, path, node, depthSoFar, done, neighbor, before, maxPathEdges);
        }
        rest := rest - {neighbor};
        assert Neighbors(node) - rest == done + {neighbor};
      }
    }
  }

  /** `q` is a simple path from the entry to a terminal node over real edges. */
  ghost predicate RealPath(R: set<Edge>, terminal: set<Name>, entry: Name, q: seq<Name>) {
    IsWalk(R, q) && q[0] == entry && q[|q| - 1] in terminal && Distinct(q)
  }

  method LongestSimplePathToEnd(entry: Name, forwardAdj: Adjacency, endEdges: seq<Edge>, ghost R: set<Edge>)
    returns (longest: nat)
    requires Represents(forwardAdj, R)
    ensures forall q :: RealPath(R, TerminalNodes(endEdges), entry, q) ==> |q| + 1 <= longest
    ensures longest == 1 || exists q :: RealPath(R, TerminalNodes(endEdges), entry, q) && longest == |q| + 1
  {
    var search := new PathSearch(forwardAdj, TerminalNodes(endEdges), entry);
    search.Dfs(entry, 0, R);
    forall q | RealPath(R, search.terminal, entry, q)
      ensures |q| <= search.maxPathEdges
    {
      assert Extension(R, search.terminal, {entry}, entry, q);
      if |q| > 1 {
        TailExtends(R, search.terminal, {entry}, entry, q);
      }
    }
    if search.maxPathEdges != 0 {
      ghost var q :| Extension(R, search.terminal, {entry}, entry, q) && search.maxPathEdges == 0 + |q|;
      assert RealPath(R, search.terminal, entry, q);
    }
    longest := search.maxPathEdges + 1;
  }

  /** Sources of an edge to END, START excepted. */
  function TerminalNodes(endEdges: seq<Edge>): set<Name> {
    set e | e in endEdges && e.source != START :: e.source
  }
}
