/** What node runs leave behind (src/modex_graph/persistence): the invocation rows with
    their compare-and-swap transitions, and the four-state deliver ledger. */
module NodeLedger {
  import opened Outcomes

  type NodeId = string

  // ---- Invocation rows (node_state_store.py) ----

  datatype Status = Running | Completed | Canceled | Crashed

  // The rows of each node, by version.
  type Rows = map<NodeId, seq<Status>>

  function Chain(rows: Rows, node: NodeId): seq<Status> {
    if node in rows then rows[node] else []
  }

  /** The chain of a node with a new RUNNING row; an orphan before it is crashed. */
  function Extended(chain: seq<Status>): seq<Status> {
    (if chain != [] && chain[|chain| - 1] == Running then chain[|chain| - 1 := Crashed] else chain) + [Running]
  }

  function WithNewRow(rows: Rows, node: NodeId): Rows {
    rows[node := Extended(Chain(rows, node))]
  }

  predicate RowExists(rows: Rows, node: NodeId, version: nat) {
    node in rows && version < |rows[node]|
  }

  /** Compare-and-swap from RUNNING. */
  function Moved(rows: Rows, node: NodeId, version: nat, to: Status): Rows
    requires RowExists(rows, node, version)
  {
    if rows[node][version] == Running then rows[node := rows[node][version := to]] else rows
  }

  /** At most the one row changed, and only if it was RUNNING. */
  ghost predicate RowChange(rows: Rows, rows': Rows, node: NodeId, version: nat) {
    && RowExists(rows, node, version) && RowExists(rows', node, version)
    && rows' == rows[node := rows[node][version := rows'[node][version]]]
    && (rows[node][version] != Running ==> rows'[node][version] == rows[node][version])
  }

  /** Terminal rows are as they were. */
  ghost predicate TerminalKept(rows: Rows, rows': Rows) {
    forall n, v :: n in rows && 0 <= v < |rows[n]| && rows[n][v] != Running
      ==> n in rows' && v < |rows'[n]| && rows'[n][v] == rows[n][v]
  }

  /** Only the last row of a node can be RUNNING. */
  ghost predicate OneRunning(rows: Rows) {
    forall n, v :: n in rows && 0 <= v < |rows[n]| - 1 ==> rows[n][v] != Running
  }

  lemma NewRowRuns(rows: Rows, node: NodeId)
    ensures var version := |Chain(rows, node)|;
      RowExists(WithNewRow(rows, node), node, version) && WithNewRow(rows, node)[node][version] == Running
  {
  }

  /** A new RUNNING row is added to the node's; an orphan left RUNNING before it becomes
      CRASHED, and every other row of any node is as it was. */
  lemma NewRowExact(rows: Rows, node: NodeId, n: NodeId, v: int)
    ensures var rows' := WithNewRow(rows, node); var last := |Chain(rows, node)|;
      && |Chain(rows', node)| == last + 1 && Chain(rows', node)[last] == Running
      && (n != node ==> Chain(rows', n) == Chain(rows, n) && (n in rows' <==> n in rows))
      && (0 <= v < last ==>
            var was := Chain(rows, node)[v];
            Chain(rows', node)[v] == if v == last - 1 && was == Running then Crashed else was)
  {
  }

  lemma NewRowKeeps(rows: Rows, node: NodeId)
    ensures TerminalKept(rows, WithNewRow(rows, node))
    ensures OneRunning(rows) ==> OneRunning(WithNewRow(rows, node))
  {
  }

  lemma ChangeKeeps(rows: Rows, rows': Rows, node: NodeId, version: nat)
    requires RowChange(rows, rows', node, version)
    ensures TerminalKept(rows, rows')
    ensures OneRunning(rows) ==> OneRunning(rows')
  {
  }

  lemma TerminalTrans(a: Rows, b: Rows, c: Rows)
    requires TerminalKept(a, b) && TerminalKept(b, c)
    ensures TerminalKept(a, c)
  {
  }

  lemma RowTrans(a: Rows, b: Rows, c: Rows, node: NodeId, version: nat)
    requires RowChange(a, b, node, version) && RowChange(b, c, node, version)
    ensures RowChange(a, c, node, version)
  {
    assert c[node] == a[node][version := c[node][version]];
  }

  lemma RowSame(rows: Rows, node: NodeId, version: nat)
    requires RowExists(rows, node, version)
    ensures RowChange(rows, rows, node, version)
  {
    assert rows[node][version := rows[node][version]] == rows[node];
  }

  lemma MovedChange(rows: Rows, node: NodeId, version: nat, to: Status)
    requires RowExists(rows, node, version)
    ensures RowChange(rows, Moved(rows, node, version, to), node, version)
  {
    RowSame(rows, node, version);
  }

  // ---- The deliver ledger (deliver_store.py) ----

  datatype Visibility = Staged | Pending | ConsumedPending | ConsumedCompleted

  function Rank(v: Visibility): nat {
    match v case Staged => 0 case Pending => 1 case ConsumedPending => 2 case ConsumedCompleted => 3
  }

  datatype Deliver = Deliver(id: nat, target: NodeId, source: NodeId, invocation: int,
                             consumedBy: Option<int>, content: string, status: Visibility)

  predicate Consumable(r: Deliver, node: NodeId) {
    r.target == node && (r.status == Pending || r.status == ConsumedPending)
  }

  function ClaimOne(r: Deliver, node: NodeId, invocation: int): Deliver {
    if Consumable(r, node) then r.(status := ConsumedPending, consumedBy := Some(invocation)) else r
  }

  function PublishOne(r: Deliver, source: NodeId): Deliver {
    if r.source == source && r.status == Staged then r.(status := Pending) else r
  }

  function FinishOne(r: Deliver, node: NodeId): Deliver {
    if r.target == node && r.status == ConsumedPending then r.(status := ConsumedCompleted) else r
  }

  /** Inputs marked consumed by an invocation. */
  function Claimed(s: seq<Deliver>, node: NodeId, invocation: int): (r: seq<Deliver>)
    ensures |r| == |s|
  {
    seq(|s|, i requires 0 <= i < |s| => ClaimOne(s[i], node, invocation))
  }

  /** Everything a source has staged made visible, whichever attempt staged it. */
  function Published(s: seq<Deliver>, source: NodeId): (r: seq<Deliver>)
    ensures |r| == |s|
  {
    seq(|s|, i requires 0 <= i < |s| => PublishOne(s[i], source))
  }

  /** Every input of a node still pending consumption marked consumed for good. */
  function Finished(s: seq<Deliver>, node: NodeId): (r: seq<Deliver>)
    ensures |r| == |s|
  {
    seq(|s|, i requires 0 <= i < |s| => FinishOne(s[i], node))
  }

  /** The ledger after a node's invocation took its inputs. */
  function Taken(s: seq<Deliver>, node: NodeId, invocation: int, registered: set<NodeId>): (r: seq<Deliver>)
    ensures |r| == |s|
  {
    if node in registered then Claimed(s, node, invocation) else s
  }

  /** The ledger after a node completed; `finished` unless a dispatch raised. */
  function Promoted(s: seq<Deliver>, node: NodeId, registered: set<NodeId>, finished: bool): (r: seq<Deliver>)
    ensures |r| == |s|
  {
    if finished && node in registered then Finished(Published(s, node), node) else Published(s, node)
  }

  ghost predicate Numbered(s: seq<Deliver>) {
    forall i :: 0 <= i < |s| ==> s[i].id == i
  }

  /** No deliver is lost or altered; its status only moves forward, and once it is
      consumed for good neither that nor its consumer changes. */
  ghost predicate Forward(s: seq<Deliver>, s': seq<Deliver>) {
    && |s| <= |s'|
    && forall i :: 0 <= i < |s| ==> SameButLater(s[i], s'[i])
  }

  predicate SameButLater(r: Deliver, r': Deliver) {
    && r' == r.(status := r'.status, consumedBy := r'.consumedBy)
    && Rank(r.status) <= Rank(r'.status)
    && (r.status == ConsumedCompleted ==> r' == r)
  }

  lemma ForwardTrans(a: seq<Deliver>, b: seq<Deliver>, c: seq<Deliver>)
    requires Forward(a, b) && Forward(b, c)
    ensures Forward(a, c)
  {
    forall i | 0 <= i < |a|
      ensures SameButLater(a[i], c[i])
    {
      assert SameButLater(a[i], b[i]) && SameButLater(b[i], c[i]);
    }
  }

  /** Nothing staged became visible and nothing was consumed for good. */
  ghost predicate NothingPromoted(s: seq<Deliver>, s': seq<Deliver>) {
    && |s| <= |s'|
    && forall i :: 0 <= i < |s| ==> SamePromotion(s[i], s'[i])
  }

  predicate SamePromotion(r: Deliver, r': Deliver) {
    && (r.status == Staged <==> r'.status == Staged)
    && (r.status == ConsumedCompleted <==> r'.status == ConsumedCompleted)
  }

  lemma TakenForward(s: seq<Deliver>, node: NodeId, invocation: int, registered: set<NodeId>)
    ensures Forward(s, Taken(s, node, invocation, registered))
    ensures NothingPromoted(s, Taken(s, node, invocation, registered))
  {
  }

  lemma PromotedForward(s: seq<Deliver>, node: NodeId, registered: set<NodeId>, finished: bool)
    ensures Forward(s, Promoted(s, node, registered, finished))
  {
  }
}
