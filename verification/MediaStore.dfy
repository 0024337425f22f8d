/** Byte-budget eviction of a session's media (src/modex_agent/media/store.py),
    over a directory that maps file names to what `stat` says of them. */
module MediaStore {

  // ---- Attachment ids are compared as strings ----

  predicate Less(a: string, b: string) {
    b != [] && (a == [] || a[0] < b[0] || (a[0] == b[0] && Less(a[1..], b[1..])))
  }

  lemma {:induction false} LessTotal(a: string, b: string)
    ensures a == b || Less(a, b) || Less(b, a)
  {
    if a != [] && b != [] && a[0] == b[0] {
      LessTotal(a[1..], b[1..]);
      assert a == [a[0]] + a[1..] && b == [b[0]] + b[1..];
    }
  }

  lemma {:induction false} LessTransitive(a: string, b: string, c: string)
    requires Less(a, b) && Less(b, c)
    ensures Less(a, c)
  {
    if a != [] && a[0] == b[0] == c[0] {
      LessTransitive(a[1..], b[1..], c[1..]);
    }
  }

  lemma {:induction false} LessStrict(a: string, b: string)
    requires Less(a, b)
    ensures !Less(b, a)
  {
    if a != [] && a[0] == b[0] {
      LessStrict(a[1..], b[1..]);
    }
  }

  // ---- Directories and listings ----

  // Something in a session directory; only regular files are listed.
  datatype Entry = File(size: nat, mtime: real) | Other

  type Directory = map<string, Entry>

  datatype StoredFile = StoredFile(id: string, size: nat, mtime: real)

  predicate IsFileOf(f: StoredFile, dir: Directory) {
    f.id in dir && dir[f.id] == File(f.size, f.mtime)
  }

  ghost predicate ById(s: seq<StoredFile>) {
    forall i, j :: 0 <= i < j < |s| ==> Less(s[i].id, s[j].id)
  }

  ghost predicate Listed(dir: Directory, s: seq<StoredFile>) {
    ById(s) && forall f :: f in s <==> IsFileOf(f, dir)
  }

  ghost predicate DistinctIds(s: seq<StoredFile>) {
    forall i, j :: 0 <= i < j < |s| ==> s[i].id != s[j].id
  }

  function Ids(s: seq<StoredFile>): set<string> {
    set f | f in s :: f.id
  }

  function Total(s: seq<StoredFile>): nat {
    if s == [] then 0 else s[0].size + Total(s[1..])
  }

  lemma {:induction false} TotalConcat(a: seq<StoredFile>, b: seq<StoredFile>)
    ensures Total(a + b) == Total(a) + Total(b)
  {
    if a == [] {
      assert a + b == b;
    } else {
      TotalConcat(a[1..], b);
      assert (a + b)[1..] == a[1..] + b;
    }
  }

  lemma TakeOut(u: seq<StoredFile>, f: StoredFile, v: seq<StoredFile>)
    ensures multiset(u + [f] + v) == multiset(u + v) + multiset{f}
    ensures Total(u + [f] + v) == Total(u + v) + f.size
  {
    TotalConcat(u, v);
    TotalConcat(u + [f], v);
    TotalConcat(u, [f]);
  }

  lemma FoundIn(f: StoredFile, b: seq<StoredFile>) returns (u: seq<StoredFile>, v: seq<StoredFile>)
    requires f in b
    ensures b == u + [f] + v
  {
    var i :| 0 <= i < |b| && b[i] == f;
    u, v := b[..i], b[i + 1..];
  }

  lemma SameAfterTakingOut(f: StoredFile, t: seq<StoredFile>, u: seq<StoredFile>, v: seq<StoredFile>)
    requires multiset([f] + t) == multiset(u + [f] + v)
    ensures multiset(t) == multiset(u + v)
  {
    TakeOut(u, f, v);
    assert multiset([f] + t) == multiset{f} + multiset(t);
    assert multiset(t) == (multiset{f} + multiset(t)) - multiset{f};
    assert multiset(u + v) == (multiset(u + v) + multiset{f}) - multiset{f};
  }

  /** The total does not depend on the order. */
  lemma {:induction false} TotalOfMultiset(a: seq<StoredFile>, b: seq<StoredFile>)
    requires multiset(a) == multiset(b)
    ensures Total(a) == Total(b)
  {
    if a == [] {
      assert |multiset(b)| == 0;
    } else {
      assert a[0] in multiset(a);
      var u, v := FoundIn(a[0], b);
      assert a == [a[0]] + a[1..];
      SameAfterTakingOut(a[0], a[1..], u, v);
      TotalOfMultiset(a[1..], u + v);
      TakeOut(u, a[0], v);
    }
  }

  lemma {:induction false} DistinctMultiset(a: seq<StoredFile>, f: StoredFile)
    requires DistinctIds(a)
    ensures multiset(a)[f] == if f in a then 1 else 0
  {
    if a != [] {
      assert a == [a[0]] + a[1..];
      DistinctMultiset(a[1..], f);
    }
  }

  // ---- Stable sorting by a key ----

  type Order = (StoredFile, StoredFile) -> bool

  function Insert(x: StoredFile, s: seq<StoredFile>, atMost: Order): (r: seq<StoredFile>)
    ensures multiset(r) == multiset(s) + multiset{x}
  {
    if s == [] || atMost(x, s[0]) then [x] + s
    else
      assert s == [s[0]] + s[1..];
      [s[0]] + Insert(x, s[1..], atMost)
  }

  function StableSort(s: seq<StoredFile>, atMost: Order): (r: seq<StoredFile>)
    ensures multiset(r) == multiset(s)
  {
    if s == [] then []
    else
      assert s == [s[0]] + s[1..];
      Insert(s[0], StableSort(s[1..], atMost), atMost)
  }

  ghost predicate Preorder(atMost: Order) {
    && (forall a, b :: atMost(a, b) || atMost(b, a))
    && (forall a, b, c :: atMost(a, b) && atMost(b, c) ==> atMost(a, c))
  }

  // In order by the key, and where keys are equal by `tie`.
  ghost predicate Ordered(s: seq<StoredFile>, atMost: Order, tie: Order) {
    forall i, j :: 0 <= i < j < |s| ==> Follows(s[i], s[j], atMost, tie)
  }

  ghost predicate Follows(a: StoredFile, b: StoredFile, atMost: Order, tie: Order) {
    atMost(a, b) && (atMost(b, a) ==> tie(a, b))
  }

  lemma InMultiset(a: seq<StoredFile>, m: multiset<StoredFile>, f: StoredFile)
    requires multiset(a) == m
    ensures f in a <==> f in m
  {
  }

  lemma {:induction false} InsertOrdered(x: StoredFile, s: seq<StoredFile>, atMost: Order, tie: Order)
    requires Preorder(atMost) && Ordered(s, atMost, tie)
    requires forall f :: f in s ==> tie(x, f)
    ensures Ordered(Insert(x, s, atMost), atMost, tie)
  {
    var r := Insert(x, s, atMost);
    if s == [] || atMost(x, s[0]) {
      forall j | 0 <= j < |s|
        ensures Follows(x, s[j], atMost, tie)
      {
        assert j > 0 ==> Follows(s[0], s[j], atMost, tie);
      }
    } else {
      var rest := Insert(x, s[1..], atMost);
      InsertOrdered(x, s[1..], atMost, tie);
      forall j | 0 <= j < |rest|
        ensures Follows(s[0], rest[j], atMost, tie)
      {
        InMultiset(rest, multiset(s[1..]) + multiset{x}, rest[j]);
        if rest[j] != x {
          assert rest[j] in s[1..];
          var k :| 0 <= k < |s[1..]| && s[1..][k] == rest[j];
          assert Follows(s[0], s[k + 1], atMost, tie);
        }
      }
    }
  }

  /** The sort is stable: entries with equal keys keep the order they came in. */
  lemma {:induction false} SortIsStable(s: seq<StoredFile>, atMost: Order, tie: Order)
    requires Preorder(atMost)
    requires forall i, j :: 0 <= i < j < |s| ==> tie(s[i], s[j])
    ensures Ordered(StableSort(s, atMost), atMost, tie)
  {
    if s != [] {
      var rest := StableSort(s[1..], atMost);
      SortIsStable(s[1..], atMost, tie);
      forall f | f in rest
        ensures tie(s[0], f)
      {
        InMultiset(rest, multiset(s[1..]), f);
        var k :| 0 <= k < |s[1..]| && s[1..][k] == f;
        assert f == s[k + 1];
      }
      InsertOrdered(s[0], rest, atMost, tie);
    }
  }

  predicate IdAtMost(a: StoredFile, b: StoredFile) {
    !Less(b.id, a.id)
  }

  predicate MtimeAtMost(a: StoredFile, b: StoredFile) {
    a.mtime <= b.mtime
  }

  lemma IdPreorder()
    ensures Preorder(IdAtMost)
  {
    forall a: StoredFile, b: StoredFile
      ensures IdAtMost(a, b) || IdAtMost(b, a)
    {
      if Less(a.id, b.id) { LessStrict(a.id, b.id); }
    }
    forall a: StoredFile, b: StoredFile, c: StoredFile | IdAtMost(a, b) && IdAtMost(b, c)
      ensures IdAtMost(a, c)
    {
      LessTotal(a.id, b.id);
      if Less(c.id, a.id) && Less(a.id, b.id) {
        LessTransitive(c.id, a.id, b.id);
      }
    }
  }

  lemma SortsById(s: seq<StoredFile>)
    requires DistinctIds(s)
    ensures ById(StableSort(s, IdAtMost))
  {
    var tie := (a: StoredFile, b: StoredFile) => a.id != b.id;
    var r := StableSort(s, IdAtMost);
    IdPreorder();
    SortIsStable(s, IdAtMost, tie);
    forall i, j | 0 <= i < j < |r|
      ensures Less(r[i].id, r[j].id)
    {
      assert Follows(r[i], r[j], IdAtMost, tie);
      LessTotal(r[i].id, r[j].id);
    }
  }

  // ---- Eviction ----

  /** Eviction order: oldest first, and by id among files of one age. */
  predicate Older(a: StoredFile, b: StoredFile) {
    a.mtime < b.mtime || (a.mtime == b.mtime && Less(a.id, b.id))
  }

  ghost predicate OldestFirst(s: seq<StoredFile>) {
    forall i, j :: 0 <= i < j < |s| ==> Older(s[i], s[j])
  }

  /** Sorting an id-ordered listing by age alone gives the order by age and then id. */
  lemma SortsByAge(s: seq<StoredFile>)
    requires ById(s)
    ensures OldestFirst(StableSort(s, MtimeAtMost))
  {
    var tie := (a: StoredFile, b: StoredFile) => Less(a.id, b.id);
    var r := StableSort(s, MtimeAtMost);
    SortIsStable(s, MtimeAtMost, tie);
    forall i, j | 0 <= i < j < |r|
      ensures Older(r[i], r[j])
    {
      assert Follows(r[i], r[j], MtimeAtMost, tie);
    }
  }

  /** The files whose id is (or is not) one of `ids`, in order. */
  function Pick(s: seq<StoredFile>, ids: set<string>, inside: bool): seq<StoredFile> {
    if s == [] then []
    else (if (s[0].id in ids) == inside then [s[0]] else []) + Pick(s[1..], ids, inside)
  }

  /** Files that could be removed. */
  function Removable(s: seq<StoredFile>, failing: set<string>): seq<StoredFile> {
    Pick(s, failing, false)
  }

  lemma {:induction false} PickSnoc(s: seq<StoredFile>, f: StoredFile, ids: set<string>, inside: bool)
    ensures Pick(s + [f], ids, inside) == Pick(s, ids, inside) + if (f.id in ids) == inside then [f] else []
  {
    if s == [] {
      assert s + [f] == [f];
    } else {
      PickSnoc(s[1..], f, ids, inside);
      assert (s + [f])[1..] == s[1..] + [f];
    }
  }

  lemma {:induction false} PickCounts(s: seq<StoredFile>, ids: set<string>, inside: bool, f: StoredFile)
    ensures multiset(Pick(s, ids, inside))[f] == if (f.id in ids) == inside then multiset(s)[f] else 0
  {
    if s != [] {
      PickCounts(s[1..], ids, inside, f);
      assert s == [s[0]] + s[1..];
    }
  }

  /** What is left, as the call counts it, after trying the first `k` files. */
  function Left(order: seq<StoredFile>, k: nat, failing: set<string>): int
    requires k <= |order|
  {
    Total(order) - Total(Removable(order[..k], failing))
  }

  /** The files of the shortest prefix that brings the count within budget, or of
      the whole order when none does; those that cannot be removed are skipped. */
  ghost predicate Evicts(order: seq<StoredFile>, budget: int, failing: set<string>, evicted: seq<StoredFile>, k: nat) {
    && k <= |order|
    && evicted == Removable(order[..k], failing)
    && (k < |order| ==> Left(order, k, failing) <= budget)
    && (forall j :: 0 <= j < k ==> Left(order, j, failing) > budget)
  }

  /** That settles what is evicted. */
  lemma EvictionSettled(order: seq<StoredFile>, budget: int, failing: set<string>,
                        e1: seq<StoredFile>, k1: nat, e2: seq<StoredFile>, k2: nat)
    requires Evicts(order, budget, failing, e1, k1) && Evicts(order, budget, failing, e2, k2)
    ensures k1 == k2 && e1 == e2
  {
    assert !(k1 < k2) && !(k2 < k1);
  }

  lemma {:induction false} NothingFails(s: seq<StoredFile>)
    ensures Removable(s, {}) == s
  {
    if s != [] {
      NothingFails(s[1..]);
      assert s == [s[0]] + s[1..];
    }
  }

  lemma LeftIsSuffix(order: seq<StoredFile>, k: nat)
    requires k <= |order|
    ensures Left(order, k, {}) == Total(order[k..])
  {
    NothingFails(order[..k]);
    TotalConcat(order[..k], order[k..]);
    assert order[..k] + order[k..] == order;
  }

  lemma SuffixTotalsFall(order: seq<StoredFile>, j: nat, k: nat)
    requires j <= k <= |order|
    ensures Total(order[k..]) <= Total(order[j..])
  {
    TotalConcat(order[j..k], order[k..]);
    assert order[j..k] + order[k..] == order[j..];
  }

  /** When every removal succeeds, the evicted files are a prefix of the order, it
      is the shortest one that meets the budget, and the budget is met if and only
      if it is not negative. */
  lemma ShortestPrefix(order: seq<StoredFile>, budget: int, evicted: seq<StoredFile>, k: nat)
    requires Evicts(order, budget, {}, evicted, k)
    ensures evicted == order[..k]
    ensures budget >= 0 ==> forall j :: 0 <= j <= |order| ==> (Total(order[j..]) <= budget <==> k <= j)
    ensures Total(order[k..]) <= budget <==> budget >= 0
  {
    NothingFails(order[..k]);
    LeftIsSuffix(order, k);
    forall j | 0 <= j <= |order|
      ensures j < k ==> Total(order[j..]) > budget
      ensures k <= j && budget >= 0 ==> Total(order[j..]) <= budget
    {
      LeftIsSuffix(order, j);
      if k <= j {
        SuffixTotalsFall(order, k, j);
      }
    }
  }

  /** Whatever fails, the call stops at the budget or has removed all it could. */
  lemma StopsOnlyWithinBudget(order: seq<StoredFile>, budget: int, failing: set<string>, evicted: seq<StoredFile>,
                              k: nat)
    requires Evicts(order, budget, failing, evicted, k)
    requires Total(order) - Total(evicted) > budget
    ensures forall f :: f in order && f.id !in failing ==> f in evicted
  {
    assert order[..k] == order;
    forall f | f in order && f.id !in failing
      ensures f in evicted
    {
      PickCounts(order, failing, false, f);
      assert multiset(evicted)[f] > 0;
    }
  }

  /** The sizes left in the directory, those evicted and those of the files another
      party removed meanwhile add up to the total before the call. */
  lemma SizesAddUp(dir: Directory, before: seq<StoredFile>, failing: set<string>, gone: set<string>,
                   evicted: seq<StoredFile>, k: nat, budget: int,
                   after: seq<StoredFile>)
    requires Listed(dir, before) && gone <= failing
    requires Evicts(StableSort(before, MtimeAtMost), budget, failing, evicted, k)
    requires Listed(dir - (gone + Ids(evicted)), after)
    ensures Total(before) == Total(after) + Total(evicted) + Total(Pick(before, gone, true))
  {
    var removed := Pick(before, gone, true);
    forall f
      ensures multiset(after + evicted + removed)[f] == multiset(before)[f]
    {
      CountsAddUp(dir, before, failing, gone, evicted, k, budget, after, f);
    }
    assert multiset(after + evicted + removed) == multiset(before);
    TotalOfMultiset(after + evicted + removed, before);
    TotalConcat(after + evicted, removed);
    TotalConcat(after, evicted);
  }

  lemma CountsAddUp(dir: Directory, before: seq<StoredFile>, failing: set<string>, gone: set<string>,
                    evicted: seq<StoredFile>, k: nat,
                    budget: int, after: seq<StoredFile>, f: StoredFile)
    requires Listed(dir, before) && gone <= failing
    requires Evicts(StableSort(before, MtimeAtMost), budget, failing, evicted, k)
    requires Listed(dir - (gone + Ids(evicted)), after)
    ensures multiset(after)[f] + multiset(evicted)[f] + multiset(Pick(before, gone, true))[f] == multiset(before)[f]
  {
    ListedDistinct(dir, before);
    ListedDistinct(dir - (gone + Ids(evicted)), after);
    DistinctMultiset(before, f);
    DistinctMultiset(after, f);
    PickCounts(before, gone, true, f);
    EvictedCount(before, failing, k, f);
    if f.id in Ids(evicted) {
      var g :| g in evicted && g.id == f.id;
      EvictedListed(before, failing, k, g);
      assert IsFileOf(g, dir);
      assert f in before ==> f == g;
    } else {
      assert f !in evicted;
    }
  }

  lemma EvictedCount(before: seq<StoredFile>, failing: set<string>, k: nat, f: StoredFile)
    requires k <= |StableSort(before, MtimeAtMost)|
    ensures multiset(Removable(StableSort(before, MtimeAtMost)[..k], failing))[f]
         <= if f.id in failing then 0 else multiset(before)[f]
  {
    var order := StableSort(before, MtimeAtMost);
    PickCounts(order[..k], failing, false, f);
    PrefixCount(order, k, f);
  }

  lemma PrefixCount(s: seq<StoredFile>, k: nat, f: StoredFile)
    requires k <= |s|
    ensures multiset(s[..k])[f] <= multiset(s)[f]
  {
    assert s == s[..k] + s[k..];
    assert multiset(s) == multiset(s[..k]) + multiset(s[k..]);
  }

  lemma EvictedListed(before: seq<StoredFile>, failing: set<string>, k: nat, g: StoredFile)
    requires k <= |StableSort(before, MtimeAtMost)|
    requires g in Removable(StableSort(before, MtimeAtMost)[..k], failing)
    ensures g in before && g.id !in failing
  {
    EvictedCount(before, failing, k, g);
    InMultiset(before, multiset(before), g);
  }

  lemma ListedDistinct(dir: Directory, s: seq<StoredFile>)
    requires Listed(dir, s)
    ensures DistinctIds(s)
  {
    forall i, j | 0 <= i < j < |s|
      ensures s[i].id != s[j].id
    {
      LessStrict(s[i].id, s[j].id);
    }
  }

  lemma {:induction false} NonePicked(s: seq<StoredFile>)
    ensures Pick(s, {}, true) == []
  {
    if s != [] {
      NonePicked(s[1..]);
    }
  }

  /** When every removal succeeds, what the directory then holds is within budget if
      and only if the budget is not negative. */
  lemma BudgetEnforced(dir: Directory, before: seq<StoredFile>, budget: int, evicted: seq<StoredFile>, k: nat,
                       after: seq<StoredFile>)
    requires Listed(dir, before)
    requires Evicts(StableSort(before, MtimeAtMost), budget, {}, evicted, k)
    requires Listed(dir - ({} + Ids(evicted)), after)
    ensures Total(after) <= budget <==> budget >= 0
  {
    SizesAddUp(dir, before, {}, {}, evicted, k, budget, after);
    NonePicked(before);
    SuffixStays(before, budget, evicted, k);
  }

  lemma SuffixStays(before: seq<StoredFile>, budget: int, evicted: seq<StoredFile>, k: nat)
    requires Evicts(StableSort(before, MtimeAtMost), budget, {}, evicted, k)
    ensures Total(before) - Total(evicted) <= budget <==> budget >= 0
  {
    var order := StableSort(before, MtimeAtMost);
    ShortestPrefix(order, budget, evicted, k);
    LeftIsSuffix(order, k);
    TotalOfMultiset(order, before);
  }

  /** And it is younger than all that went. */
  lemma OldestEvicted(dir: Directory, before: seq<StoredFile>, budget: int, evicted: seq<StoredFile>, k: nat,
                      e: StoredFile, f: StoredFile)
    requires Listed(dir, before)
    requires Evicts(StableSort(before, MtimeAtMost), budget, {}, evicted, k)
    requires e in evicted && IsFileOf(f, dir - Ids(evicted))
    ensures Older(e, f)
  {
    var order := StableSort(before, MtimeAtMost);
    ShortestPrefix(order, budget, evicted, k);
    SortsByAge(before);
    assert f in before && f !in order[..k];
    InMultiset(order, multiset(before), f);
  }

  // ---- What a caller sees ----

  /** The ids differ first at a smaller character, or one is the start of the other. */
  predicate Precedes(a: string, b: string) {
    exists n :: 0 <= n <= |a| && n <= |b| && FirstDiffer(a, b, n)
  }

  predicate FirstDiffer(a: string, b: string, n: nat)
    requires n <= |a| && n <= |b|
  {
    a[..n] == b[..n] && ((n == |a| && n < |b|) || (n < |a| && n < |b| && a[n] < b[n]))
  }

  lemma {:induction false} LessMeans(a: string, b: string)
    ensures Less(a, b) <==> Precedes(a, b)
  {
    if a == [] || b == [] || a[0] != b[0] {
      assert a[..0] == b[..0] == [];
      assert Less(a, b) ==> FirstDiffer(a, b, 0);
      assert forall n :: 0 < n <= |a| && n <= |b| ==> a[..n][0] == a[0] && b[..n][0] == b[0];
    } else {
      LessMeans(a[1..], b[1..]);
      if n :| 0 <= n <= |a| && n <= |b| && FirstDiffer(a, b, n) {
        assert n > 0 && a[1..][..n - 1] == a[..n][1..] && b[1..][..n - 1] == b[..n][1..];
        assert FirstDiffer(a[1..], b[1..], n - 1);
      }
      if n :| 0 <= n <= |a[1..]| && n <= |b[1..]| && FirstDiffer(a[1..], b[1..], n) {
        assert a[..n + 1] == [a[0]] + a[1..][..n] && b[..n + 1] == [b[0]] + b[1..][..n];
        assert FirstDiffer(a, b, n + 1);
      }
    }
  }

  predicate IsOlder(a: StoredFile, b: StoredFile) {
    a.mtime < b.mtime || (a.mtime == b.mtime && Precedes(a.id, b.id))
  }

  predicate CanGo(f: StoredFile, dir: Directory, failing: set<string>) {
    f.id in dir && dir[f.id] == File(f.size, f.mtime) && f.id !in failing
  }

  /** Only removable files of the directory go, oldest first and none before an older one;
      each was still needed when it went, and then the total is within budget or nothing
      removable is left. */
  ghost predicate EvictPromise(dir: Directory, total: nat, budget: int, failing: set<string>, evicted: seq<StoredFile>)
  {
    && (forall e :: e in evicted ==> CanGo(e, dir, failing))
    && (forall i, j :: 0 <= i < j < |evicted| ==> IsOlder(evicted[i], evicted[j]))
    && (forall e, f :: e in evicted && CanGo(f, dir, failing) && IsOlder(f, e) ==> f in evicted)
    && (forall j :: 0 <= j < |evicted| ==> total - Total(evicted[..j]) > budget)
    && (total - Total(evicted) <= budget || forall f :: CanGo(f, dir, failing) ==> f in evicted)
  }

  lemma PickedIs(s: seq<StoredFile>, failing: set<string>, f: StoredFile)
    ensures f in Removable(s, failing) <==> f in s && f.id !in failing
  {
    PickCounts(s, failing, false, f);
    assert f in Removable(s, failing) <==> multiset(Removable(s, failing))[f] > 0;
    assert f in s <==> multiset(s)[f] > 0;
  }

  /** Where the files that could be removed stand in the order. */
  lemma {:induction false} PickPlaces(s: seq<StoredFile>, ids: set<string>, a: nat, b: nat)
    returns (i: nat, j: nat)
    requires a < b < |Pick(s, ids, false)|
    ensures i < j < |s| && s[i] == Pick(s, ids, false)[a] && s[j] == Pick(s, ids, false)[b]
  {
    var rest := Pick(s[1..], ids, false);
    if s[0].id in ids {
      i, j := PickPlaces(s[1..], ids, a, b);
      i, j := i + 1, j + 1;
    } else if a == 0 {
      assert rest[b - 1] in Removable(s[1..], ids);
      PickedIs(s[1..], ids, rest[b - 1]);
      var k :| 0 <= k < |s[1..]| && s[1..][k] == rest[b - 1];
      i, j := 0, k + 1;
    } else {
      i, j := PickPlaces(s[1..], ids, a - 1, b - 1);
      i, j := i + 1, j + 1;
    }
  }

  /** Each eviction was needed when it happened. */
  lemma {:induction false} EachNeeded(order: seq<StoredFile>, budget: int, failing: set<string>, k: nat, j: nat)
    requires k <= |order| && forall i :: 0 <= i < k ==> Left(order, i, failing) > budget
    requires j < |Removable(order[..k], failing)|
    ensures Total(order) - Total(Removable(order[..k], failing)[..j]) > budget
    decreases k
  {
    assert k > 0;
    TriedOneMore(order, k - 1, failing);
    var before, now := Removable(order[..k - 1], failing), Removable(order[..k], failing);
    if j < |before| {
      EachNeeded(order, budget, failing, k - 1, j);
      assert now[..j] == before[..j];
    } else {
      assert now[..j] == before;
    }
  }

  lemma OldestFirstMeans(before: seq<StoredFile>, i: nat, j: nat)
    requires ById(before) && i < j < |StableSort(before, MtimeAtMost)|
    ensures var order := StableSort(before, MtimeAtMost);
      IsOlder(order[i], order[j]) && !IsOlder(order[j], order[i])
  {
    var order := StableSort(before, MtimeAtMost);
    SortsByAge(before);
    assert Older(order[i], order[j]);
    LessMeans(order[i].id, order[j].id);
    LessMeans(order[j].id, order[i].id);
    if Less(order[i].id, order[j].id) {
      LessStrict(order[i].id, order[j].id);
    }
  }

  lemma EvictsOldestFirst(before: seq<StoredFile>, failing: set<string>, k: nat)
    requires ById(before) && k <= |StableSort(before, MtimeAtMost)|
    ensures var evicted := Removable(StableSort(before, MtimeAtMost)[..k], failing);
      forall i, j :: 0 <= i < j < |evicted| ==> IsOlder(evicted[i], evicted[j])
  {
    var order := StableSort(before, MtimeAtMost);
    var evicted := Removable(order[..k], failing);
    forall a, b | 0 <= a < b < |evicted|
      ensures IsOlder(evicted[a], evicted[b])
    {
      var i, j := PickPlaces(order[..k], failing, a, b);
      OldestFirstMeans(before, i, j);
    }
  }

  lemma NoOlderIsSpared(before: seq<StoredFile>, failing: set<string>, k: nat, e: StoredFile, f: StoredFile)
    requires ById(before) && k <= |StableSort(before, MtimeAtMost)|
    requires e in Removable(StableSort(before, MtimeAtMost)[..k], failing)
    requires f in before && f.id !in failing && IsOlder(f, e)
    ensures f in Removable(StableSort(before, MtimeAtMost)[..k], failing)
  {
    var order := StableSort(before, MtimeAtMost);
    PickedIs(order[..k], failing, e);
    PickedIs(order[..k], failing, f);
    var i :| 0 <= i < k && order[..k][i] == e;
    InMultiset(order, multiset(before), f);
    var j :| 0 <= j < |order| && order[j] == f;
    if i < j {
      OldestFirstMeans(before, i, j);
    } else {
      assert f == order[..k][j];
    }
  }

  lemma EvictionPromised(dir: Directory, before: seq<StoredFile>, budget: int, failing: set<string>,
                         evicted: seq<StoredFile>, k: nat)
    requires Listed(dir, before)
    requires Evicts(StableSort(before, MtimeAtMost), budget, failing, evicted, k)
    ensures EvictPromise(dir, Total(before), budget, failing, evicted)
  {
    var order := StableSort(before, MtimeAtMost);
    TotalOfMultiset(order, before);
    EvictsOldestFirst(before, failing, k);
    forall e, f | e in evicted && f in before && f.id !in failing && IsOlder(f, e)
      ensures f in evicted
    {
      NoOlderIsSpared(before, failing, k, e, f);
    }
    forall f
      ensures f in before && f.id !in failing <==> CanGo(f, dir, failing)
    {
      assert f in before <==> IsFileOf(f, dir);
    }
    forall e | e in evicted
      ensures CanGo(e, dir, failing)
    {
      EvictedListed(before, failing, k, e);
    }
    forall j | 0 <= j < |evicted|
      ensures Total(before) - Total(evicted[..j]) > budget
    {
      EachNeeded(order, budget, failing, k, j);
    }
    if Total(before) - Total(evicted) > budget {
      StopsOnlyWithinBudget(order, budget, failing, evicted, k);
      assert forall f :: f in before ==> f in order by {
        forall f | f in before ensures f in order { InMultiset(order, multiset(before), f); }
      }
    }
  }

  /** Sweeping leaves everything else of the session, and all other sessions. */
  lemma SweptMeans(sessions: map<string, Directory>, session: string, ids: set<string>, dropEmpty: bool)
    ensures var swept := Swept(sessions, session, ids, dropEmpty);
      && (forall t :: t != session ==> (t in swept <==> t in sessions) && (t in sessions ==> swept[t] == sessions[t]))
      && (session in swept ==> session in sessions)
      && (session in sessions ==>
            (session !in swept <==> dropEmpty && forall id :: id in sessions[session] ==> id in ids))
      && (session in swept ==> forall id :: id in swept[session] <==> id in sessions[session] && id !in ids)
      && (session in swept ==> forall id :: id in swept[session] ==> swept[session][id] == sessions[session][id])
  {
    if session in sessions {
      var rest := sessions[session] - ids;
      assert forall id :: id in rest <==> id in sessions[session] && id !in ids;
      assert rest.Keys == {} <==> rest == map[];
      assert rest.Keys == {} <==> forall id :: id in sessions[session] ==> id in ids;
    }
  }

  /** A store with files of a session removed, and its directory if that empties it. */
  function Swept(sessions: map<string, Directory>, session: string, ids: set<string>,
                 dropEmpty: bool): map<string, Directory>
  {
    if session !in sessions then sessions
    else if dropEmpty && sessions[session] - ids == map[] then sessions - {session}
    else sessions[session := sessions[session] - ids]
  }

  lemma SweptTwice(sessions: map<string, Directory>, session: string, a: set<string>, b: set<string>, dropEmpty: bool)
    requires session in sessions
    ensures Swept(Swept(sessions, session, a, false), session, b, dropEmpty)
         == Swept(sessions, session, a + b, dropEmpty)
  {
    assert (sessions[session] - a) - b == sessions[session] - (a + b);
    if !(dropEmpty && sessions[session] - (a + b) == map[]) {
      assert sessions[session := sessions[session] - a][session := sessions[session] - (a + b)]
          == sessions[session := sessions[session] - (a + b)];
    } else {
      assert sessions[session := sessions[session] - a] - {session} == sessions - {session};
    }
  }

  lemma DroppedLast(sessions: map<string, Directory>, session: string, ids: set<string>)
    requires session in sessions
    ensures var swept := Swept(sessions, session, ids, false);
      Swept(sessions, session, ids, true) == if swept[session] == map[] then swept - {session} else swept
  {
    var swept := Swept(sessions, session, ids, false);
    assert swept - {session} == sessions - {session};
  }

  lemma SweptNone(sessions: map<string, Directory>, session: string)
    requires session in sessions
    ensures Swept(sessions, session, Ids([]), false) == sessions
  {
    assert sessions[session] - Ids([]) == sessions[session];
    assert sessions[session := sessions[session]] == sessions;
  }

  lemma NothingListed(s: seq<StoredFile>)
    requires Listed(map[], s)
    ensures s == []
  {
    forall f ensures f !in multiset(s) {
      InMultiset(s, multiset(s), f);
    }
    assert multiset(s) == multiset{};
    assert |s| == |multiset(s)|;
  }

  lemma TriedOneMore(order: seq<StoredFile>, i: nat, failing: set<string>)
    requires i < |order|
    ensures var f := order[i];
      && Removable(order[..i + 1], failing) == Removable(order[..i], failing) + (if f.id in failing then [] else [f])
      && Left(order, i + 1, failing) == Left(order, i, failing) - (if f.id in failing then 0 else f.size)
  {
    var f := order[i];
    assert order[..i + 1] == order[..i] + [f];
    PickSnoc(order[..i], f, failing, false);
    TotalConcat(Removable(order[..i], failing), [f]);
    assert Total([f]) == f.size;
    if f.id in failing {
      assert Removable(order[..i + 1], failing) == Removable(order[..i], failing);
    } else {
      assert Removable(order[..i + 1], failing) == Removable(order[..i], failing) + [f];
    }
  }

  // ---- The store ----

  class Store {
    var sessions: map<string, Directory>

    constructor ()
      ensures sessions == map[]
    {
      sessions := map[];
    }

    /** The files of a session; none when it has no directory. */
    function DirOf(session: string): Directory
      reads this
    {
      if session in sessions then sessions[session] else map[]
    }

    method ListSession(session: string) returns (entries: seq<StoredFile>)
      ensures Listed(DirOf(session), entries)
    {
      var dir := DirOf(session);
      entries := [];
      var names := dir.Keys;
      while names != {}
        invariant names <= dir.Keys
        invariant DistinctIds(entries)
        invariant forall f :: f in entries <==> IsFileOf(f, dir) && f.id !in names
      {
        var name :| name in names;
        names := names - {name};
        if dir[name].File? {
          entries := entries + [StoredFile(name, dir[name].size, dir[name].mtime)];
        }
      }
      ghost var found := entries;
      entries := StableSort(entries, IdAtMost);
      SortsById(found);
      forall f ensures f in entries <==> f in found {
        InMultiset(entries, multiset(found), f);
      }
    }

    method Unlink(session: string, id: string)
      requires session in sessions
      modifies this
      ensures sessions == Swept(old(sessions), session, {id}, false)
    {
      sessions := sessions[session := sessions[session] - {id}];
    }

    /** The eviction loop over the files oldest first. */
    method EvictInOrder(session: string, order: seq<StoredFile>, budget: int, failing: set<string>)
      returns (evicted: seq<StoredFile>, ghost k: nat)
      requires session in sessions
      modifies this
      ensures Evicts(order, budget, failing, evicted, k)
      ensures sessions == Swept(old(sessions), session, Ids(evicted), false)
    {
      var total: int := Sum(order);
      evicted, k := [], 0;
      SweptNone(sessions, session);
      var i := 0;
      while i < |order| && total > budget
        invariant i <= |order| && k == i
        invariant total == Left(order, i, failing) && evicted == Removable(order[..i], failing)
        invariant forall j :: 0 <= j < i ==> Left(order, j, failing) > budget
        invariant session in sessions && sessions == Swept(old(sessions), session, Ids(evicted), false)
      {
        var entry := order[i];
        TriedOneMore(order, i, failing);
        if entry.id !in failing {
          Unlink(session, entry.id);
          SweptTwice(old(sessions), session, Ids(evicted), {entry.id}, false);
          assert Ids(evicted + [entry]) == Ids(evicted) + {entry.id};
          evicted := evicted + [entry];
          total := total - entry.size;
        }
        i, k := i + 1, k + 1;
      }
    }

    /** Evicts the oldest files until the total is within budget.  Files in `stuck`
        cannot be removed; those in `gone` were removed by another party after the
        listing.  An emptied directory is dropped. */
    method EnforceBudget(session: string, budget: int, stuck: set<string>, gone: set<string>)
      returns (evicted: seq<StoredFile>, ghost files: seq<StoredFile>, ghost k: nat)
      modifies this
      ensures Listed(old(DirOf(session)), files)
      ensures Total(files) <= budget ==> evicted == []
      ensures Total(files) > budget ==> Evicts(StableSort(files, MtimeAtMost), budget, stuck + gone, evicted, k)
      ensures sessions == Swept(old(sessions), session, gone + Ids(evicted), Total(files) > budget)
      ensures EvictPromise(old(DirOf(session)), Total(files), budget, stuck + gone, evicted)
    {
      var entries := ListSession(session);
      files, evicted, k := entries, [], 0;
      LoseFiles(session, gone);
      var total := Sum(entries);
      if total <= budget {
        assert gone + Ids([]) == gone && Total([]) == 0;
        return;
      }
      if session !in sessions {
        NothingListed(entries);
        return;
      }
      evicted, k := EvictInOrder(session, StableSort(entries, MtimeAtMost), budget, stuck + gone);
      EvictionPromised(old(DirOf(session)), files, budget, stuck + gone, evicted, k);
      SweptTwice(old(sessions), session, gone, Ids(evicted), false);
      DropIfEmpty(session);
      DroppedLast(old(sessions), session, gone + Ids(evicted));
    }

    /** Another party removes files of the session. */
    method LoseFiles(session: string, gone: set<string>)
      modifies this
      ensures sessions == Swept(old(sessions), session, gone, false)
    {
      if session in sessions {
        sessions := sessions[session := sessions[session] - gone];
      }
    }

    method DropIfEmpty(session: string)
      requires session in sessions
      modifies this
      ensures sessions == if old(sessions)[session] == map[] then old(sessions) - {session} else old(sessions)
    {
      if sessions[session] == map[] {
        sessions := sessions - {session};
      }
    }
  }

  /** `sum` of the sizes. */
  method Sum(files: seq<StoredFile>) returns (total: nat)
    ensures total == Total(files)
  {
    total := 0;
    for i := 0 to |files|
      invariant total == Total(files[..i])
    {
      assert files[..i + 1] == files[..i] + [files[i]];
      TotalConcat(files[..i], [files[i]]);
      total := total + files[i].size;
    }
    assert files[..|files|] == files;
  }
}
