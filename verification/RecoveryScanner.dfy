/** The recovery scanner's retry budget (examples/graph_patterns/recovery_scanner.py). */
module RecoveryScanner {
  import opened Sequences

  datatype Status = Pending | Running | Pausing | Paused | Stopping | Stopped | Crashed | Completed | Failed

  type Store = map<int, Status>

  predicate Recoverable(status: Status) {
    status == Crashed || status == Running
  }

  predicate IsCandidate(store: Store, id: int) {
    id in store && Recoverable(store[id])
  }

  // ---- One scan as one instance sees it ----

  // What a scan loaded, what `recover_crashed` reported, and the statuses it left.
  datatype Scan = Scan(before: Store, recovered: set<int>, after: Store)

  datatype Outcome = NotCandidate | Unsuccessful | Cleared

  function OutcomeOf(scan: Scan, id: int): Outcome {
    if !IsCandidate(scan.before, id) then NotCandidate
    else if id !in scan.recovered && IsCandidate(scan.after, id) then Unsuccessful
    else Cleared
  }

  function Counter(attempts: map<int, int>, id: int): int {
    if id in attempts then attempts[id] else 0
  }

  function CounterAfter(counter: int, outcome: Outcome, max: int): int {
    match outcome
    case NotCandidate => counter
    case Cleared => 0
    case Unsuccessful => if counter + 1 >= max then 0 else counter + 1
  }

  predicate Exhausts(counter: int, outcome: Outcome, max: int) {
    outcome == Unsuccessful && counter + 1 >= max
  }

  // ---- Over all scans ----

  function Outcomes(scans: seq<Scan>, id: int): (r: seq<Outcome>)
    ensures |r| == |scans|
  {
    seq(|scans|, i requires 0 <= i < |scans| => OutcomeOf(scans[i], id))
  }

  /** Unsuccessful scans since the count was last cleared. */
  function UnsuccessfulSince(outcomes: seq<Outcome>): nat {
    if outcomes == [] then 0
    else
      var last := outcomes[|outcomes| - 1];
      if last == Cleared then 0
      else UnsuccessfulSince(outcomes[..|outcomes| - 1]) + if last == Unsuccessful then 1 else 0
  }

  /** Unsuccessful scans that use the budget up: the limit, but at least one. */
  function Budget(max: int): (b: int)
    ensures b >= 1
  {
    if max < 1 then 1 else max
  }

  lemma CountOnModulo(count: nat, b: int)
    requires b >= 1
    ensures (count + 1) % b == if count % b + 1 == b then 0 else count % b + 1
  {
    var q, r := count / b, count % b;
    if r + 1 == b {
      assert count + 1 == b * (q + 1);
      DivMod(count + 1, b, q + 1, 0);
    } else {
      DivMod(count + 1, b, q, r + 1);
    }
  }

  lemma DivMod(n: int, b: int, q: int, r: int)
    requires 0 <= r < b && n == b * q + r
    ensures n % b == r
  {
    var d := n / b - q;
    assert b * d == r - n % b;
    AtLeastOneFactor(b, d);
  }

  lemma AtLeastOneFactor(b: int, d: int)
    requires b >= 1
    ensures (d >= 1 ==> b * d >= b) && (d <= -1 ==> b * d <= -b)
  {
  }

  /** One more scan, when the counter stands at the count modulo the budget. */
  lemma CounterStep(outcomes: seq<Outcome>, next: Outcome, max: int)
    ensures var count := UnsuccessfulSince(outcomes); var count' := UnsuccessfulSince(outcomes + [next]);
      && CounterAfter(count % Budget(max), next, max) == count' % Budget(max)
      && (Exhausts(count % Budget(max), next, max) <==> next == Unsuccessful && count' % Budget(max) == 0)
  {
    assert (outcomes + [next])[..|outcomes|] == outcomes;
    CountOnModulo(UnsuccessfulSince(outcomes), Budget(max));
  }

  /** Counting is exact: while the scanner keeps a count, that is the number of
      unsuccessful scans since the instance was last cleared or failed. */
  ghost predicate CountsExactly(attempts: map<int, int>, scans: seq<Scan>, max: int) {
    && (forall id :: id in attempts ==> 0 < attempts[id] < max)
    && (forall id {:trigger Counter(attempts, id)} ::
          Counter(attempts, id) == UnsuccessfulSince(Outcomes(scans, id)) % Budget(max))
  }

  /** The last scan was unsuccessful and the unsuccessful ones reached the budget. */
  ghost predicate UsesUpBudget(scans: seq<Scan>, id: int, max: int)
    requires scans != []
  {
    && OutcomeOf(scans[|scans| - 1], id) == Unsuccessful
    && UnsuccessfulSince(Outcomes(scans, id)) % Budget(max) == 0
  }

  lemma StaysExact(attempts: map<int, int>, attempts': map<int, int>, scans: seq<Scan>, scan: Scan, max: int)
    requires CountsExactly(attempts, scans, max)
    requires forall id :: id in attempts' ==> 0 < attempts'[id] < max
    requires forall id {:trigger Counter(attempts', id)} ::
      Counter(attempts', id) == CounterAfter(Counter(attempts, id), OutcomeOf(scan, id), max)
    ensures CountsExactly(attempts', scans + [scan], max)
  {
    forall id
      ensures Counter(attempts', id) == UnsuccessfulSince(Outcomes(scans + [scan], id)) % Budget(max)
    {
      assert Counter(attempts, id) == UnsuccessfulSince(Outcomes(scans, id)) % Budget(max);
      assert Outcomes(scans + [scan], id) == Outcomes(scans, id) + [OutcomeOf(scan, id)];
      CounterStep(Outcomes(scans, id), OutcomeOf(scan, id), max);
    }
  }

  /** With an exact count, an instance is failed by a scan exactly when that scan is
      its unsuccessful one that uses the budget up. */
  lemma FailedAtBudget(attempts: map<int, int>, scans: seq<Scan>, scan: Scan, max: int, id: int)
    requires CountsExactly(attempts, scans, max)
    ensures Exhausts(Counter(attempts, id), OutcomeOf(scan, id), max) <==> UsesUpBudget(scans + [scan], id, max)
  {
    assert Counter(attempts, id) == UnsuccessfulSince(Outcomes(scans, id)) % Budget(max);
    assert Outcomes(scans + [scan], id) == Outcomes(scans, id) + [OutcomeOf(scan, id)];
    CounterStep(Outcomes(scans, id), OutcomeOf(scan, id), max);
  }

  // ---- Penalised only if attempted ----

  /** `recover_crashed` reports only instances it found CRASHED
      (src/modex_agent/control/graph_recovery.py:38-49), which are those it attempts. */
  predicate Sound(scan: Scan) {
    forall r :: r in scan.recovered ==> Attempted(scan, r)
  }

  predicate Attempted(scan: Scan, id: int) {
    id in scan.before && scan.before[id] == Crashed
  }

  predicate Fair(scan: Scan, id: int) {
    Sound(scan) && OutcomeOf(scan, id) == Unsuccessful ==> Attempted(scan, id)
  }

  /** Whatever recovery makes of a scan, it counts against an instance only failed
      attempts, if and only if no instance is RUNNING when the scan loads. */
  lemma PenaltyMeansAttempt(before: Store)
    ensures (forall recovered, after, id :: Fair(Scan(before, recovered, after), id))
       <==> (forall id :: id in before ==> before[id] != Running)
  {
    if id :| id in before && before[id] == Running {
      assert !Fair(Scan(before, {}, before), id);
    }
  }

  /** The scans counted against an instance since it was last cleared. */
  function Counted(scans: seq<Scan>, id: int): (r: seq<Scan>)
    ensures |r| == UnsuccessfulSince(Outcomes(scans, id))
    ensures forall s :: s in r ==> s in scans && OutcomeOf(s, id) == Unsuccessful
  {
    if scans == [] then []
    else
      var n := |scans| - 1;
      assert Outcomes(scans, id)[..n] == Outcomes(scans[..n], id);
      match OutcomeOf(scans[n], id)
      case Cleared => []
      case NotCandidate => Counted(scans[..n], id)
      case Unsuccessful => Counted(scans[..n], id) + [scans[n]]
  }

  /** How many of the counted scans attempted the instance. */
  function Attempts(counted: seq<Scan>, id: int): nat {
    if counted == [] then 0 else Attempts(counted[1..], id) + if Attempted(counted[0], id) then 1 else 0
  }

  lemma {:induction false} AttemptsAll(counted: seq<Scan>, id: int)
    ensures Attempts(counted, id) <= |counted|
    ensures Attempts(counted, id) == |counted| <==> forall s :: s in counted ==> Attempted(s, id)
  {
    if counted != [] {
      AttemptsAll(counted[1..], id);
      assert counted == [counted[0]] + counted[1..];
    }
  }

  /** The counted scans that used the budget up: the last full budget of them. */
  function Batch(scans: seq<Scan>, id: int, max: int): (r: seq<Scan>)
    requires scans != [] && UsesUpBudget(scans, id, max)
    ensures |r| == Budget(max)
    ensures forall s :: s in r ==> s in scans && OutcomeOf(s, id) == Unsuccessful
  {
    var n := |scans| - 1;
    assert Outcomes(scans, id)[..n] == Outcomes(scans[..n], id);
    PositiveMultiple(UnsuccessfulSince(Outcomes(scans, id)), Budget(max));
    var counted := Counted(scans, id);
    counted[|counted| - Budget(max)..]
  }

  lemma PositiveMultiple(n: nat, b: int)
    requires n > 0 && b >= 1 && n % b == 0
    ensures n >= b
  {
  }

  // ---- Failed only after a budget of attempts ----

  /** The scans loaded these stores, and reported only what they attempted. */
  ghost predicate ScansOf(scans: seq<Scan>, stores: seq<Store>) {
    && |scans| == |stores|
    && forall i :: 0 <= i < |scans| ==> scans[i].before == stores[i] && Sound(scans[i])
  }

  /** Whenever the instance is marked FAILED, every scan of the budget used up attempted it. */
  ghost predicate FailsOnlyAttempted(scans: seq<Scan>, id: int, max: int) {
    forall n {:trigger scans[..n]} :: 0 < n <= |scans| && UsesUpBudget(scans[..n], id, max)
      ==> Attempts(Batch(scans[..n], id, max), id) == Budget(max)
  }

  function Candidacies(stores: seq<Store>, id: int): nat {
    if stores == [] then 0
    else Candidacies(stores[..|stores| - 1], id) + if IsCandidate(stores[|stores| - 1], id) then 1 else 0
  }

  predicate RunsIn(stores: seq<Store>, id: int) {
    exists k :: 0 <= k < |stores| && id in stores[k] && stores[k][id] == Running
  }

  lemma {:induction false} CandidaciesGrow(stores: seq<Store>, id: int, n: nat)
    requires n <= |stores|
    ensures Candidacies(stores[..n], id) <= Candidacies(stores, id)
  {
    if n == |stores| {
      assert stores[..n] == stores;
    } else {
      var m := |stores| - 1;
      CandidaciesGrow(stores[..m], id, n);
      assert stores[..m][..n] == stores[..n];
    }
  }

  /** The number of candidacies takes every value up to its last, first just after one. */
  lemma {:induction false} CandidacyAt(stores: seq<Store>, id: int, n: nat, count: nat) returns (j: nat)
    requires n <= |stores| && count <= Candidacies(stores[..n], id)
    ensures j <= n && Candidacies(stores[..j], id) == count
    ensures count > 0 ==> j > 0 && IsCandidate(stores[j - 1], id)
  {
    if count == 0 {
      j := 0;
    } else {
      assert stores[..n][..n - 1] == stores[..n - 1];
      if count == Candidacies(stores[..n], id) && IsCandidate(stores[n - 1], id) {
        j := n;
      } else {
        j := CandidacyAt(stores, id, n - 1, count);
      }
    }
  }

  lemma {:induction false} CountedAreCandidacies(scans: seq<Scan>, stores: seq<Store>, id: int)
    requires ScansOf(scans, stores)
    ensures UnsuccessfulSince(Outcomes(scans, id)) <= Candidacies(stores, id)
  {
    if scans != [] {
      var n := |scans| - 1;
      CountedAreCandidacies(scans[..n], stores[..n], id);
      assert Outcomes(scans, id)[..n] == Outcomes(scans[..n], id);
    }
  }

  // Scans that clear every candidate before `from` and are unsuccessful after.
  function Probe(stores: seq<Store>, from: nat): (scans: seq<Scan>)
    ensures |scans| == |stores|
  {
    seq(|stores|, i requires 0 <= i < |stores| => Scan(stores[i], {}, if i < from then map[] else stores[i]))
  }

  lemma {:induction false} ProbeCounts(stores: seq<Store>, from: nat, id: int, n: nat)
    requires n <= |stores| && from <= |stores|
    ensures UnsuccessfulSince(Outcomes(Probe(stores, from)[..n], id))
         == if n <= from then 0 else Candidacies(stores[..n], id) - Candidacies(stores[..from], id)
  {
    if n > 0 {
      var scans := Probe(stores, from);
      ProbeCounts(stores, from, id, n - 1);
      assert Outcomes(scans[..n], id)[..n - 1] == Outcomes(scans[..n - 1], id);
      assert stores[..n][..n - 1] == stores[..n - 1];
    }
  }

  lemma {:induction false} ProbeCountsIt(stores: seq<Store>, from: nat, id: int, n: nat, k: nat)
    requires from <= k < n <= |stores| && IsCandidate(stores[k], id)
    ensures Probe(stores, from)[k] in Counted(Probe(stores, from)[..n], id)
  {
    var scans := Probe(stores, from);
    assert scans[..n][..n - 1] == scans[..n - 1];
    if k < n - 1 {
      ProbeCountsIt(stores, from, id, n - 1, k);
    }
  }

  /** A full budget of candidacies ending at `n`, among them one while RUNNING. */
  lemma ProbeFailsIt(stores: seq<Store>, from: nat, id: int, n: nat, k: nat, max: int)
    requires from <= k < n <= |stores| && id in stores[k] && stores[k][id] == Running
    requires IsCandidate(stores[n - 1], id)
    requires Candidacies(stores[..n], id) - Candidacies(stores[..from], id) == Budget(max)
    ensures ScansOf(Probe(stores, from), stores) && !FailsOnlyAttempted(Probe(stores, from), id, max)
  {
    var scans := Probe(stores, from);
    ProbeCounts(stores, from, id, n);
    assert OutcomeOf(scans[..n][n - 1], id) == Unsuccessful;
    assert UsesUpBudget(scans[..n], id, max);
    var counted := Counted(scans[..n], id);
    assert Batch(scans[..n], id, max) == counted;
    ProbeCountsIt(stores, from, id, n, k);
    AttemptsAll(counted, id);
    assert !Attempted(scans[k], id);
  }

  /** Among enough candidacies some full budget of consecutive ones includes any given. */
  lemma WindowAround(stores: seq<Store>, id: int, k: nat, budget: int) returns (from: nat, n: nat)
    requires k < |stores| && IsCandidate(stores[k], id) && 1 <= budget <= Candidacies(stores, id)
    ensures from <= k < n <= |stores| && IsCandidate(stores[n - 1], id)
    ensures Candidacies(stores[..n], id) - Candidacies(stores[..from], id) == budget
  {
    assert stores[..k + 1][..k] == stores[..k] && stores[..|stores|] == stores;
    if Candidacies(stores[..k + 1], id) >= budget {
      n := k + 1;
      from := CandidacyAt(stores, id, k, Candidacies(stores[..k + 1], id) - budget);
    } else {
      from := 0;
      n := CandidacyAt(stores, id, |stores|, budget);
      if n <= k {
        assert stores[..k + 1][..n] == stores[..n];
        CandidaciesGrow(stores[..k + 1], id, n);
      }
    }
  }

  /** Whatever the scans that load these stores report and leave, an instance is marked
      FAILED only after a full budget of failed attempts, if and only if it is not RUNNING
      in any of the stores or a candidate in fewer of them than the budget. */
  lemma FailureMeansAttempts(stores: seq<Store>, id: int, max: int)
    ensures (forall scans :: ScansOf(scans, stores) ==> FailsOnlyAttempted(scans, id, max))
       <==> !RunsIn(stores, id) || Candidacies(stores, id) < Budget(max)
  {
    if RunsIn(stores, id) && Candidacies(stores, id) >= Budget(max) {
      var k :| 0 <= k < |stores| && id in stores[k] && stores[k][id] == Running;
      var from, n := WindowAround(stores, id, k, Budget(max));
      ProbeFailsIt(stores, from, id, n, k, max);
    } else {
      forall scans | ScansOf(scans, stores)
        ensures FailsOnlyAttempted(scans, id, max)
      {
        forall n {:trigger scans[..n]} | 0 < n <= |scans| && UsesUpBudget(scans[..n], id, max)
          ensures Attempts(Batch(scans[..n], id, max), id) == Budget(max)
        {
          BatchAttempted(scans, stores, id, n, max);
        }
      }
    }
  }

  lemma EnoughCandidacies(scans: seq<Scan>, stores: seq<Store>, id: int, n: nat, max: int)
    requires ScansOf(scans, stores) && 0 < n <= |scans| && UsesUpBudget(scans[..n], id, max)
    ensures Candidacies(stores, id) >= Budget(max)
  {
    CountedAreCandidacies(scans[..n], stores[..n], id);
    CandidaciesGrow(stores, id, n);
    assert Outcomes(scans[..n], id)[n - 1] == Unsuccessful;
    PositiveMultiple(UnsuccessfulSince(Outcomes(scans[..n], id)), Budget(max));
  }

  lemma BatchAttempted(scans: seq<Scan>, stores: seq<Store>, id: int, n: nat, max: int)
    requires ScansOf(scans, stores) && 0 < n <= |scans| && UsesUpBudget(scans[..n], id, max)
    requires !RunsIn(stores, id) || Candidacies(stores, id) < Budget(max)
    ensures Attempts(Batch(scans[..n], id, max), id) == Budget(max)
  {
    EnoughCandidacies(scans, stores, id, n, max);
    forall s | s in Batch(scans[..n], id, max)
      ensures Attempted(s, id)
    {
      assert OutcomeOf(s, id) == Unsuccessful;
      var i :| 0 <= i < n && scans[..n][i] == s;
      assert s.before == stores[i];
    }
    AttemptsAll(Batch(scans[..n], id, max), id);
  }

  /** The instance is RUNNING when the scan loads and after it. */
  predicate RunsThrough(scan: Scan, id: int) {
    id in scan.before && scan.before[id] == Running && id in scan.after && scan.after[id] == Running
  }

  lemma {:induction false} HealthyRunIsCounted(scans: seq<Scan>, id: int)
    requires forall s :: s in scans ==> RunsThrough(s, id)
    requires forall s :: s in scans ==> Sound(s)
    ensures UnsuccessfulSince(Outcomes(scans, id)) == |scans|
  {
    if scans != [] {
      var n := |scans| - 1;
      HealthyRunIsCounted(scans[..n], id);
      assert scans[n] in scans;
      assert Outcomes(scans, id)[..n] == Outcomes(scans[..n], id);
      assert OutcomeOf(scans[n], id) == Unsuccessful;
    }
  }

  /** A healthy instance, RUNNING before and after each of as many scans as the budget
      allows, is failed by the last, though none attempted it. */
  lemma HealthyRunIsFailed(scans: seq<Scan>, id: int, max: int)
    requires |scans| == Budget(max)
    requires forall s :: s in scans ==> RunsThrough(s, id)
    requires forall s :: s in scans ==> Sound(s)
    ensures UsesUpBudget(scans, id, max) && Attempts(Batch(scans, id, max), id) == 0
  {
    HealthyRunIsCounted(scans, id);
    assert scans[|scans| - 1] in scans;
    NoneAttempted(Batch(scans, id, max), id);
  }

  lemma {:induction false} NoneAttempted(counted: seq<Scan>, id: int)
    requires forall s :: s in counted ==> !Attempted(s, id)
    ensures Attempts(counted, id) == 0
  {
    if counted != [] {
      assert counted == [counted[0]] + counted[1..];
      NoneAttempted(counted[1..], id);
    }
  }

  // ---- The scanner ----

  // Ids up to `done` have been recorded, the others not.
  ghost predicate Recorded(attempts: map<int, int>, store: Store, attempts': map<int, int>, store': Store,
                           done: seq<int>, scan: Scan, max: int)
  {
    && (forall id :: id in attempts' ==> 0 < attempts'[id] < max)
    && (forall id {:trigger Counter(attempts', id)} :: Counter(attempts', id) ==
          if id in done then CounterAfter(Counter(attempts, id), OutcomeOf(scan, id), max) else Counter(attempts, id))
    && store'.Keys == store.Keys
    && (forall id {:trigger store'[id]} :: id in store ==>
          store'[id] == if id in done && Exhausts(Counter(attempts, id), OutcomeOf(scan, id), max) then Failed
                        else store[id])
  }

  /** Recording one more id, by one of the three things `_record_attempts` does. */
  lemma RecordedOne(attempts: map<int, int>, store: Store, a: map<int, int>, s: Store, a': map<int, int>, s': Store,
                    done: seq<int>, id: int, scan: Scan, max: int)
    requires Recorded(attempts, store, a, s, done, scan, max) && id !in done && scan.after == store
    requires IsCandidate(scan.before, id)
    requires var outcome := OutcomeOf(scan, id);
      && (outcome == Cleared ==> a' == a - {id} && s' == s)
      && (outcome == Unsuccessful && Counter(a, id) + 1 >= max ==> a' == a - {id} && s' == s[id := Failed])
      && (outcome == Unsuccessful && Counter(a, id) + 1 < max ==> a' == a[id := Counter(a, id) + 1] && s' == s)
    ensures Recorded(attempts, store, a', s', done + [id], scan, max)
  {
    assert Counter(a, id) == Counter(attempts, id);
    forall i
      ensures Counter(a', i) == if i in done + [id] then CounterAfter(Counter(attempts, i), OutcomeOf(scan, i), max)
                                else Counter(attempts, i)
    {
      assert Counter(a, i) == if i in done then CounterAfter(Counter(attempts, i), OutcomeOf(scan, i), max)
                              else Counter(attempts, i);
    }
  }

  /** What one scan does to the counts and the statuses recovery left: an instance found
      CRASHED or RUNNING that was recovered, or no longer is either, has its count cleared;
      one that still is has it raised by one, and at the limit is marked FAILED and its count
      forgotten; nothing else changes. */
  ghost predicate ScanPromise(scan: Scan, attempts: map<int, int>, attempts': map<int, int>, store': Store, max: int) {
    && store'.Keys == scan.after.Keys
    && forall id {:trigger Treated(scan, attempts, attempts', store', max, id)} ::
         Treated(scan, attempts, attempts', store', max, id)
  }

  ghost predicate Treated(scan: Scan, attempts: map<int, int>, attempts': map<int, int>, store': Store, max: int,
                          id: int)
  {
    var found := id in scan.before && (scan.before[id] == Crashed || scan.before[id] == Running);
    var still := id in scan.after && (scan.after[id] == Crashed || scan.after[id] == Running);
    var count := if id in attempts then attempts[id] + 1 else 1;
    if !found then
      && (id in attempts' <==> id in attempts) && (id in attempts ==> attempts'[id] == attempts[id])
      && Left(scan, store', id)
    else if id in scan.recovered || !still then id !in attempts' && Left(scan, store', id)
    else if count >= max then id !in attempts' && id in store' && store'[id] == Failed
    else id in attempts' && attempts'[id] == count && Left(scan, store', id)
  }

  predicate Left(scan: Scan, store': Store, id: int) {
    id in scan.after ==> id in store' && store'[id] == scan.after[id]
  }

  lemma RecordedAsPromised(attempts: map<int, int>, store: Store, attempts': map<int, int>, store': Store,
                           done: seq<int>, scan: Scan, max: int)
    requires Recorded(attempts, store, attempts', store', done, scan, max) && scan.after == store
    requires forall id :: id in attempts ==> 0 < attempts[id] < max
    requires forall id :: id in done <==> IsCandidate(scan.before, id)
    ensures ScanPromise(scan, attempts, attempts', store', max)
  {
    forall id
      ensures Treated(scan, attempts, attempts', store', max, id)
    {
      assert Counter(attempts', id) == if id in done then CounterAfter(Counter(attempts, id), OutcomeOf(scan, id), max)
                                       else Counter(attempts, id);
      if id in store {
        var exhausted := id in done && Exhausts(Counter(attempts, id), OutcomeOf(scan, id), max);
        assert store'[id] == if exhausted then Failed else store[id];
      }
    }
  }

  method AnyOf(ids: set<int>) returns (id: int)
    requires ids != {}
    ensures id in ids
  {
    assert (forall i: int :: i !in ids) ==> ids == {};
    id :| id in ids;
  }

  class Scanner {
    const maxRecoveryAttempts: int
    var attempts: map<int, int>
    var store: Store
    ghost var scans: seq<Scan>

    constructor (maxRecoveryAttempts: int, store: Store)
      ensures Valid() && scans == [] && this.store == store && this.maxRecoveryAttempts == maxRecoveryAttempts
    {
      this.maxRecoveryAttempts := maxRecoveryAttempts;
      attempts, scans := map[], [];
      this.store := store;
    }

    ghost predicate Valid()
      reads this
    {
      CountsExactly(attempts, scans, maxRecoveryAttempts)
    }

    /** The ids of one status, in the store's order. */
    method LoadByStatus(status: Status) returns (ids: seq<int>)
      ensures Distinct(ids) && forall id :: id in ids <==> id in store && store[id] == status
    {
      ids := [];
      var pending := store.Keys;
      while pending != {}
        invariant pending <= store.Keys
        invariant forall id :: id in ids <==> id in store.Keys - pending && store[id] == status
        invariant Distinct(ids)
      {
        var id := AnyOf(pending);
        pending := pending - {id};
        if store[id] == status {
          ids := ids + [id];
        }
      }
    }

    method LoadCandidateIds() returns (ids: seq<int>)
      ensures Distinct(ids) && forall id :: id in ids <==> IsCandidate(store, id)
    {
      var crashed := LoadByStatus(Crashed);
      var running := LoadByStatus(Running);
      ids := crashed + running;
      assert forall i :: 0 <= i < |crashed| ==> crashed[i] in crashed;
      assert forall i :: 0 <= i < |running| ==> running[i] in running;
    }

    method RecordAttempts(ids: seq<int>, recovered: set<int>, ghost scan: Scan)
      requires Distinct(ids) && scan.after == store && scan.recovered == recovered
      requires forall id :: id in ids ==> IsCandidate(scan.before, id)
      requires forall id :: id in attempts ==> 0 < attempts[id] < maxRecoveryAttempts
      modifies this`attempts, this`store
      ensures Recorded(old(attempts), old(store), attempts, store, ids, scan, maxRecoveryAttempts)
    {
      for i := 0 to |ids|
        invariant Recorded(old(attempts), old(store), attempts, store, ids[..i], scan, maxRecoveryAttempts)
      {
        var id := ids[i];
        assert id in ids && id !in ids[..i] && ids[..i + 1] == ids[..i] + [id];
        ghost var a, s := attempts, store;
        assert id in store <==> id in scan.after;
        assert id in store ==> store[id] == scan.after[id];
        if id in recovered {
          attempts := attempts - {id};
        } else if id !in store || !Recoverable(store[id]) {
          attempts := attempts - {id};
        } else {
          var attemptCount := Counter(attempts, id) + 1;
          if attemptCount >= maxRecoveryAttempts {
            store := store[id := Failed];
            attempts := attempts - {id};
          } else {
            attempts := attempts[id := attemptCount];
          }
        }
        RecordedOne(old(attempts), old(store), a, s, attempts, store, ids[..i], id, scan, maxRecoveryAttempts);
      }
      assert ids[..|ids|] == ids;
    }

    /** One scan; `recover_crashed` reports `recovered` and leaves the statuses
        `after`, or raises, which leaves the counts alone. */
    method RecoverOnce(recovered: set<int>, after: Store, raises: bool) returns (ok: bool)
      requires Valid()
      modifies this
      ensures Valid() && ok == !raises
      ensures raises ==> attempts == old(attempts) && scans == old(scans) && store == after
      ensures !raises ==> scans == old(scans) + [Scan(old(store), recovered, after)] && store.Keys == after.Keys
      ensures !raises ==>
        ScanPromise(Scan(old(store), recovered, after), old(attempts), attempts, store, maxRecoveryAttempts)
      ensures !raises ==> forall id {:trigger store[id]} :: id in after ==>
        store[id] == if UsesUpBudget(scans, id, maxRecoveryAttempts) then Failed else after[id]
    {
      var candidateIds := LoadCandidateIds();
      ghost var scan := Scan(store, recovered, after);
      store := after;
      if raises {
        return false;
      }
      RecordAttempts(candidateIds, recovered, scan);
      RecordedAsPromised(old(attempts), after, attempts, store, candidateIds, scan, maxRecoveryAttempts);
      forall id
        ensures Exhausts(Counter(old(attempts), id), OutcomeOf(scan, id), maxRecoveryAttempts)
             == UsesUpBudget(scans + [scan], id, maxRecoveryAttempts)
      {
        FailedAtBudget(old(attempts), scans, scan, maxRecoveryAttempts, id);
      }
      StaysExact(old(attempts), attempts, scans, scan, maxRecoveryAttempts);
      scans := scans + [scan];
      ok := true;
    }
  }
}
