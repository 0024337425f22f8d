/** `Graph._detect_cycles` (graph.py:250-284): a depth-first search with a
    visited set, the current stack and an on-stack set.  Every list it returns is
    a closed walk reached from the entry; an empty answer means there is none. */
module CycleDetection {
  import opened Sequences
  import opened Walks

  type EdgeLists = map<Name, seq<Name>>

  /** `adj` lists the successors of each node in declaration order. */
  ghost predicate Lists(adj: EdgeLists, R: set<Edge>) {
    && (forall u, v :: Edge(u, v) in R <==> u in adj && v in adj[u])
    && (forall e :: e in R ==> e.target in adj)
  }

  ghost predicate ReachedCycle(R: set<Edge>, root: Name, c: seq<Name>) {
    IsCycle(R, c) && Reaches(R, root, c[0])
  }

  ghost predicate HasReachedCycle(R: set<Edge>, root: Name) {
    exists c :: ReachedCycle(R, root, c)
  }

  /** Every successor of a finished node finished before it. */
  ghost predicate PostOrder(R: set<Edge>, finished: seq<Name>) {
    forall i, v :: 0 <= i < |finished| && Edge(finished[i], v) in R ==> v in finished[..i]
  }

  lemma PostOrderSnoc(R: set<Edge>, finished: seq<Name>, node: Name)
    requires PostOrder(R, finished)
    requires forall v :: Edge(node, v) in R ==> v in finished
    ensures PostOrder(R, finished + [node])
  {
    var longer := finished + [node];
    forall i, v | 0 <= i < |longer| && Edge(longer[i], v) in R
      ensures v in longer[..i]
    {
      assert longer[..i] == finished[..i];
      if i == |finished| {
        assert finished[..i] == finished;
      }
    }
  }

  /** Along a walk through finished nodes the finishing index strictly falls. */
  lemma WalkDescends(R: set<Edge>, finished: seq<Name>, c: seq<Name>, k: nat, i: nat) returns (j: nat)
    requires PostOrder(R, finished) && IsWalk(R, c)
    requires k < |finished| && c[0] == finished[k] && i < |c|
    ensures j <= k && finished[j] == c[i] && (i > 0 ==> j < k)
  {
    if i == 0 {
      j := k;
    } else {
      var m := WalkDescends(R, finished, c, k, i - 1);
      assert Edge(c[i - 1], c[i - 1 + 1]) in R;
      assert c[i] in finished[..m];
      j :| 0 <= j < m && finished[..m][j] == c[i];
    }
  }

  /** A root whose whole reachable part finished in post-order meets no cycle. */
  lemma PostOrderAcyclic(R: set<Edge>, finished: seq<Name>, root: Name)
    requires PostOrder(R, finished) && Distinct(finished) && root in finished
    ensures !HasReachedCycle(R, root)
  {
    forall c | IsCycle(R, c) && Reaches(R, root, c[0])
      ensures false
    {
      var k :| 0 <= k < |finished| && finished[k] == root;
      var w :| WalkFromTo(R, w, root, c[0]);
      var m := WalkDescends(R, finished, w, k, |w| - 1);
      var j := WalkDescends(R, finished, c, m, |c| - 1);
    }
  }

  /** The search state between two calls.  `finished`, the nodes in the order
      they left the stack, is ghost; white nodes are outside `visited`, grey ones
      on the stack, black ones finished. */
  ghost predicate Coloured(R: set<Edge>, root: Name, visited: set<Name>, stack: seq<Name>, onStack: set<Name>,
                           cycles: seq<seq<Name>>, finished: seq<Name>)
  {
    && onStack == Elements(stack) && Distinct(stack) && Distinct(finished)
    && (stack != [] ==> WalkFromTo(R, stack, root, stack[|stack| - 1]))
    && visited == Elements(finished) + onStack && Elements(finished) !! onStack
    && (forall c :: c in cycles ==> ReachedCycle(R, root, c))
    && (cycles == [] ==> PostOrder(R, finished))
  }

  /** `node` may be visited next: it is the root or a successor of the top. */
  ghost predicate Callable(R: set<Edge>, root: Name, stack: seq<Name>, node: Name) {
    if stack == [] then node == root else Edge(stack[|stack| - 1], node) in R
  }

  /** A grey successor closes a cycle: the stack from it on, then it again. */
  lemma Record(R: set<Edge>, root: Name, visited: set<Name>, stack: seq<Name>, onStack: set<Name>,
               cycles: seq<seq<Name>>, finished: seq<Name>, node: Name, idx: nat)
    requires Coloured(R, root, visited, stack, onStack, cycles, finished)
    requires Callable(R, root, stack, node)
    requires idx < |stack| && stack[idx] == node
    ensures Coloured(R, root, visited, stack, onStack, cycles + [stack[idx..] + [node]], finished)
  {
    var longer := stack + [node];
    var c := stack[idx..] + [node];
    assert c == longer[idx..];
    assert WalkFromTo(R, longer[0..idx + 1], root, node);
    assert ReachedCycle(R, root, c);
  }

  lemma Pop(R: set<Edge>, root: Name, visited: set<Name>, stack: seq<Name>, onStack: set<Name>,
            cycles: seq<seq<Name>>, finished: seq<Name>, node: Name)
    requires Coloured(R, root, visited, stack + [node], onStack, cycles, finished)
    requires cycles == [] ==> forall v :: Edge(node, v) in R ==> v in finished
    ensures Coloured(R, root, visited, stack, onStack - {node}, cycles, finished + [node])
  {
    var longer := stack + [node];
    ElementsSnoc(stack, node);
    ElementsSnoc(finished, node);
    assert node !in Elements(stack) by {
      assert forall i :: 0 <= i < |stack| ==> longer[i] == stack[i] && longer[i] != longer[|stack|];
    }
    assert node !in Elements(finished);
    assert Distinct(stack) by {
      assert forall i :: 0 <= i < |stack| ==> longer[i] == stack[i];
    }
    if stack != [] {
      assert longer[0..|stack|] == stack;
    }
    if cycles == [] {
      PostOrderSnoc(R, finished, node);
    }
  }

  class CycleFinder {
    const adj: EdgeLists
    const root: Name
    ghost const R: set<Edge>
    var visited: set<Name>
    var stack: seq<Name>
    var onStack: set<Name>
    var cycles: seq<seq<Name>>
    ghost var finished: seq<Name>

    constructor (adj: EdgeLists, root: Name, ghost R: set<Edge>)
      requires Lists(adj, R) && root in adj
      ensures this.adj == adj && this.root == root && this.R == R
      ensures Valid() && visited == {} && stack == [] && cycles == []
    {
      this.adj := adj;
      this.root := root;
      this.R := R;
      visited, stack, onStack, cycles := {}, [], {}, [];
      finished := [];
    }

    ghost predicate Valid()
      reads this
    {
      Lists(adj, R) && Coloured(R, root, visited, stack, onStack, cycles, finished)
    }

    method Enter(node: Name)
      requires Valid() && Callable(R, root, stack, node) && node !in visited
      modifies this
      ensures Valid() && visited == old(visited) + {node} && stack == old(stack) + [node]
      ensures cycles == old(cycles) && finished == old(finished)
    {
      visited := visited + {node};
      onStack := onStack + {node};
      stack := stack + [node];
    }

    method Leave(node: Name, ghost below: seq<Name>)
      requires Valid() && stack == below + [node]
      requires cycles == [] ==> forall v :: Edge(node, v) in R ==> v in finished
      modifies this
      ensures Valid() && visited == old(visited) && stack == below
      ensures cycles == old(cycles) && finished == old(finished) + [node]
    {
      Pop(R, root, visited, below, onStack, cycles, finished, node);
      stack := stack[..|stack| - 1];
      onStack := onStack - {node};
      finished := finished + [node];
    }

    /** A grey node met again closes a cycle. */
    method RecordCycle(node: Name)
      requires Valid() && Callable(R, root, stack, node) && node in onStack
      modifies this
      ensures Valid() && visited == old(visited) && stack == old(stack) && finished == old(finished)
      ensures old(cycles) <= cycles && cycles != []
    {
      var idx :| 0 <= idx < |stack| && stack[idx] == node;
      Record(R, root, visited, stack, onStack, cycles, finished, node, idx);
      cycles := cycles + [stack[idx..] + [node]];
    }

    method Dfs(node: Name)
      requires Valid() && node in adj && Callable(R, root, stack, node)
      modifies this
      ensures Valid() && stack == old(stack)
      ensures old(visited) <= visited
      ensures old(cycles) <= cycles && old(finished) <= finished
      ensures cycles == [] ==> node in finished
      decreases adj.Keys - visited, 0
    {
      if node in onStack {
        RecordCycle(node);
        return;
      }
      if node in visited {
        return;
      }
      ghost var below := stack;
      assert node in adj.Keys - visited;
      Enter(node);
      Explore(node, adj[node]);
      assert forall v :: Edge(node, v) in R ==> v in adj[node];
      Leave(node, below);
    }

    /** The loop over the successors of the node on top of the stack. */
    method Explore(node: Name, neighbors: seq<Name>)
      requires Valid() && node in adj && neighbors == adj[node]
      requires stack != [] && stack[|stack| - 1] == node
      modifies this
      ensures Valid() && stack == old(stack)
      ensures old(visited) <= visited
      ensures old(cycles) <= cycles && old(finished) <= finished
      ensures cycles == [] ==> forall v :: v in neighbors ==> v in finished
      decreases adj.Keys - visited, 1
    {
      for i := 0 to |neighbors|
        invariant Valid() && stack == old(stack)
        invariant old(visited) <= visited
        invariant old(cycles) <= cycles && old(finished) <= finished
        invariant cycles == [] ==> forall k :: 0 <= k < i ==> neighbors[k] in finished
      {
        assert Edge(node, neighbors[i]) in R;
        Dfs(neighbors[i]);
      }
    }
  }

  /** Sound and complete for the part reached from the root. */
  method DetectCycles(adj: EdgeLists, root: Name, ghost R: set<Edge>) returns (cycles: seq<seq<Name>>)
    requires Lists(adj, R) && root in adj
    ensures forall c :: c in cycles ==> ReachedCycle(R, root, c)
    ensures cycles == [] <==> !HasReachedCycle(R, root)
  {
    var finder := new CycleFinder(adj, root, R);
    finder.Dfs(root);
    cycles := finder.cycles;
    if cycles == [] {
      PostOrderAcyclic(R, finder.finished, root);
    } else {
      assert cycles[0] in cycles && ReachedCycle(R, root, cycles[0]);
    }
  }

  /** The sentinels are searched like any other node: a self-loop on END is a cycle. */
  lemma SentinelCycleFound()
    ensures HasReachedCycle({Edge(START, END), Edge(END, END)}, START)
  {
    ReachesEdge({Edge(START, END), Edge(END, END)}, START, END);
    assert ReachedCycle({Edge(START, END), Edge(END, END)}, START, [END, END]);
  }
}
