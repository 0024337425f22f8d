/** `InMemoryControlChannel` (control/channel.py:64-188): commands partitioned by
    session and type, with a side index of creation times.  Every method body runs
    under the channel's lock, so each call is one atomic step. */
module ControlChannel {
  import opened Outcomes
  import opened Sequences

  datatype CommandType =
    | CancelTurn | CancelRun | InjectUserMessage | ApprovalResponse | InjectSteer
    | PauseGraph | StopGraph | ResumeGraph | DeliverToNode

  datatype Scope = Scope(sessionId: string, agentId: Option<string>, turnId: Option<string>)

  datatype Command = Command(id: string, kind: CommandType, scope: Scope, ttlSeconds: Option<real>)

  predicate ScopeMatches(cmd: Scope, target: Scope) {
    && cmd.sessionId == target.sessionId
    && (target.agentId.Some? ==> cmd.agentId == target.agentId)
    && (target.turnId.Some? ==> cmd.turnId == target.turnId)
  }

  function Forget(scope: Scope, keepAgent: bool, keepTurn: bool): Scope {
    Scope(scope.sessionId, if keepAgent then scope.agentId else None, if keepTurn then scope.turnId else None)
  }

  /** A target matches exactly the commands whose own scope it is when its agent, its
      turn, both or neither are forgotten. */
  lemma ScopeMatchesExact(cmd: Scope, target: Scope)
    ensures ScopeMatches(cmd, target) <==> exists keepAgent, keepTurn :: target == Forget(cmd, keepAgent, keepTurn)
  {
    if ScopeMatches(cmd, target) {
      assert target == Forget(cmd, target.agentId.Some?, target.turnId.Some?);
    }
  }

  // What a scan needs to know: the clock, the default time to live, the creation
  // times and the scope asked for.
  datatype View = View(now: real, ttl: real, created: map<string, real>, target: Scope) {
    predicate Expired(c: Command) {
      var createdAt := if c.id in created then created[c.id] else 0.0;
      now - createdAt > (if c.ttlSeconds.Some? then c.ttlSeconds.value else ttl)
    }

    predicate Hit(c: Command) {
      !Expired(c) && ScopeMatches(c.scope, target)
    }

    /** The live in-scope commands, oldest first. */
    function Hits(q: seq<Command>): seq<Command> {
      if q == [] then [] else (if Hit(q[0]) then [q[0]] else []) + Hits(q[1..])
    }

    function ExpiredIds(q: seq<Command>): seq<string> {
      if q == [] then [] else (if Expired(q[0]) then [q[0].id] else []) + ExpiredIds(q[1..])
    }

    /** One queue drained up to `room` hits. */
    function Scan(q: seq<Command>, room: Option<nat>): (r: Scanned) {
      if q == [] || room == Some(0) then Scanned([], [], q)
      else if Expired(q[0]) then
        var r := Scan(q[1..], room);
        r.(gone := [q[0].id] + r.gone)
      else if !ScopeMatches(q[0].scope, target) then
        var r := Scan(q[1..], room);
        r.(rest := [q[0]] + r.rest)
      else
        var r := Scan(q[1..], Less(room, 1));
        r.(hits := [q[0]] + r.hits)
    }

    /** The queues of a session drained in the order `types`. */
    function DrainAll(types: seq<CommandType>, qs: Queues, room: Option<nat>): (r: Drained) {
      if types == [] || room == Some(0) then Drained([], [], qs)
      else if types[0] !in qs then DrainAll(types[1..], qs, room)
      else
        var s := Scan(qs[types[0]], room);
        var r := DrainAll(types[1..], qs[types[0] := s.rest], Less(room, |s.hits|));
        r.(hits := s.hits + r.hits, gone := s.gone + r.gone)
    }

    /** Looking at the queues in the order `types` purges their expired commands. */
    function Purge(types: seq<CommandType>, qs: Queues): (r: (Queues, seq<string>)) {
      if types == [] then (qs, [])
      else if types[0] !in qs then Purge(types[1..], qs)
      else
        var gone := ExpiredIds(qs[types[0]]);
        var r := Purge(types[1..], qs[types[0] := Without(qs[types[0]], Elements(gone))]);
        (r.0, gone + r.1)
    }

    /** All live in-scope commands in scan order. */
    function HitsOf(types: seq<CommandType>, qs: Queues): seq<Command> {
      if types == [] then []
      else (if types[0] in qs then Hits(qs[types[0]]) else []) + HitsOf(types[1..], qs)
    }
  }

  type Queues = map<CommandType, seq<Command>>

  datatype Scanned = Scanned(hits: seq<Command>, gone: seq<string>, rest: seq<Command>)
  datatype Drained = Drained(hits: seq<Command>, gone: seq<string>, queues: Queues)

  function Less(room: Option<nat>, n: nat): Option<nat> {
    if room.None? then None else if n > room.value then Some(0) else Some(room.value - n)
  }

  function Take<T>(s: seq<T>, room: Option<nat>): seq<T> {
    if room.Some? && room.value < |s| then s[..room.value] else s
  }

  function Ids(q: seq<Command>): set<string> {
    set c | c in q :: c.id
  }

  function IdSeq(q: seq<Command>): seq<string> {
    if q == [] then [] else [q[0].id] + IdSeq(q[1..])
  }

  /** `q` without the commands whose id is in `ids`, order kept. */
  function Without(q: seq<Command>, ids: set<string>): (r: seq<Command>)
    ensures forall c :: c in r <==> c in q && c.id !in ids
  {
    if q == [] then []
    else
      assert forall c :: c in q <==> c == q[0] || c in q[1..];
      (if q[0].id in ids then [] else [q[0]]) + Without(q[1..], ids)
  }

  ghost predicate DistinctIds(q: seq<Command>) {
    forall i, j :: 0 <= i < j < |q| ==> q[i].id != q[j].id
  }

  // ---- What a scan means ----

  lemma {:induction false} WithoutNone(q: seq<Command>, ids: set<string>)
    requires forall c :: c in q ==> c.id !in ids
    ensures Without(q, ids) == q
  {
    if q != [] {
      WithoutNone(q[1..], ids);
    }
  }

  lemma {:induction false} WithoutAgree(q: seq<Command>, ids: set<string>, ids': set<string>)
    requires forall c :: c in q ==> (c.id in ids <==> c.id in ids')
    ensures Without(q, ids) == Without(q, ids')
  {
    if q != [] {
      WithoutAgree(q[1..], ids, ids');
    }
  }

  /** The hits are the first `room` live in-scope commands of the queue. */
  lemma {:induction false} ScanTakesEarliest(v: View, q: seq<Command>, room: Option<nat>)
    ensures v.Scan(q, room).hits == Take(v.Hits(q), room)
  {
    if q != [] && room != Some(0) {
      ScanTakesEarliest(v, q[1..], if v.Hit(q[0]) then Less(room, 1) else room);
    }
  }

  lemma {:induction false} ScanMembers(v: View, q: seq<Command>, room: Option<nat>)
    ensures var r := v.Scan(q, room);
      && (forall c :: c in r.hits ==> c in q && v.Hit(c))
      && (forall id :: id in r.gone ==> exists c :: c in q && c.id == id && v.Expired(c))
      && |r.hits| + |r.gone| + |r.rest| == |q|
  {
    if q != [] && room != Some(0) {
      ScanMembers(v, q[1..], if v.Hit(q[0]) then Less(room, 1) else room);
      assert forall c :: c in q[1..] ==> c in q;
      assert q[0] in q;
    }
  }

  lemma TakenIds(v: View, q: seq<Command>, room: Option<nat>)
    ensures Ids(v.Scan(q, room).hits) + Elements(v.Scan(q, room).gone) <= Ids(q)
  {
    ScanMembers(v, q, room);
  }

  /** The ids a scan takes out of its queue. */
  function TakenOut(v: View, q: seq<Command>, room: Option<nat>): set<string> {
    Ids(v.Scan(q, room).hits) + Elements(v.Scan(q, room).gone)
  }

  /** Matched, expired and remaining commands split the queue: the remainder is
      the queue without the other two, in order. */
  lemma {:induction false} ScanSplits(v: View, q: seq<Command>, room: Option<nat>)
    requires DistinctIds(q)
    ensures v.Scan(q, room).rest == Without(q, TakenOut(v, q, room))
  {
    if q == [] || room == Some(0) {
      WithoutNone(q, TakenOut(v, q, room));
    } else {
      var room' := if v.Hit(q[0]) then Less(room, 1) else room;
      ScanSplits(v, q[1..], room');
      TakenIds(v, q[1..], room');
      assert q[0].id !in Ids(q[1..]);
      WithoutAgree(q[1..], TakenOut(v, q, room), TakenOut(v, q[1..], room'));
    }
  }

  lemma {:induction false} HitsDistinct(v: View, q: seq<Command>, room: Option<nat>)
    requires DistinctIds(q)
    ensures DistinctIds(v.Scan(q, room).hits)
  {
    if q != [] && room != Some(0) {
      var room' := if v.Hit(q[0]) then Less(room, 1) else room;
      HitsDistinct(v, q[1..], room');
      ScanMembers(v, q[1..], room');
      DistinctCons(q[0], v.Scan(q[1..], room').hits, q[1..]);
    }
  }

  lemma DistinctCons(c: Command, hits: seq<Command>, q: seq<Command>)
    requires DistinctIds(hits) && (forall d :: d in hits ==> d in q) && forall d :: d in q ==> d.id != c.id
    ensures DistinctIds([c] + hits)
  {
    forall j | 0 <= j < |hits|
      ensures hits[j].id != c.id
    {
      assert hits[j] in q;
    }
  }

  /** The earliest expired commands are purged on the way: an expired command is
      purged exactly when fewer than `room` hits stand before it. */
  lemma {:induction false} ScanPurges(v: View, q: seq<Command>, room: Option<nat>, i: nat)
    requires DistinctIds(q) && i < |q| && v.Expired(q[i])
    ensures q[i].id in v.Scan(q, room).gone <==> room.None? || |v.Hits(q[..i])| < room.value
  {
    if room == Some(0) {
    } else if i == 0 {
    } else {
      assert q[..i][1..] == q[1..][..i - 1];
      var room' := if v.Hit(q[0]) then Less(room, 1) else room;
      ScanPurges(v, q[1..], room', i - 1);
      assert q[1..][i - 1] == q[i];
      assert q[i] in q[1..];
    }
  }

  /** An unlimited scan purges every expired command. */
  lemma {:induction false} UnlimitedScan(v: View, q: seq<Command>)
    ensures v.Scan(q, None).hits == v.Hits(q) && v.Scan(q, None).gone == v.ExpiredIds(q)
  {
    if q != [] {
      UnlimitedScan(v, q[1..]);
    }
  }

  lemma TakeTwice<T>(a: seq<T>, b: seq<T>, room: Option<nat>)
    ensures Take(a, room) + Take(b, Less(room, |Take(a, room)|)) == Take(a + b, room)
  {
  }

  lemma {:induction false} HitsFrame(v: View, types: seq<CommandType>, qs: Queues, ct: CommandType, q: seq<Command>)
    requires ct !in types
    ensures v.HitsOf(types, qs[ct := q]) == v.HitsOf(types, qs)
  {
    if types != [] {
      HitsFrame(v, types[1..], qs, ct, q);
    }
  }

  lemma NothingTaken<T>(s: seq<T>)
    ensures Take(s, Some(0)) == []
  {
  }

  /** A drain returns the earliest live in-scope commands in scan order, up to the
      limit, whatever types are scanned. */
  lemma {:induction false} DrainTakesEarliest(v: View, types: seq<CommandType>, qs: Queues, room: Option<nat>)
    requires Distinct(types)
    ensures v.DrainAll(types, qs, room).hits == Take(v.HitsOf(types, qs), room)
  {
    if types == [] {
    } else if room == Some(0) {
      NothingTaken(v.HitsOf(types, qs));
    } else if types[0] !in qs {
      DrainTakesEarliest(v, types[1..], qs, room);
      assert v.HitsOf(types, qs) == v.HitsOf(types[1..], qs);
    } else {
      var q := qs[types[0]];
      var s := v.Scan(q, room);
      ScanTakesEarliest(v, q, room);
      DrainTakesEarliest(v, types[1..], qs[types[0] := s.rest], Less(room, |s.hits|));
      HitsFrame(v, types[1..], qs, types[0], s.rest);
      TakeTwice(v.Hits(q), v.HitsOf(types[1..], qs), room);
    }
  }

  lemma {:induction false} HitsSurvivePurge(v: View, q: seq<Command>, ids: set<string>)
    requires forall c :: c in q && c.id in ids ==> v.Expired(c)
    ensures v.Hits(Without(q, ids)) == v.Hits(q)
  {
    if q != [] {
      HitsSurvivePurge(v, q[1..], ids);
      assert q[0] in q;
      if q[0].id in ids {
        assert v.Expired(q[0]) && Without(q, ids) == Without(q[1..], ids);
      } else {
        assert Without(q, ids)[1..] == Without(q[1..], ids);
      }
    }
  }

  lemma {:induction false} ExpiredExact(v: View, q: seq<Command>, c: Command)
    requires DistinctIds(q) && c in q
    ensures c.id in v.ExpiredIds(q) <==> v.Expired(c)
  {
    if c == q[0] {
      if c.id in v.ExpiredIds(q[1..]) {
        ExpiredMembers(v, q[1..]);
      }
    } else {
      ExpiredExact(v, q[1..], c);
    }
  }

  /** A drain with no limit right after a peek, at the same time and scope, hands
      out exactly what the peek showed. */
  lemma {:induction false} DrainAfterPeek(v: View, types: seq<CommandType>, qs: Queues)
    requires Distinct(types) && forall ct :: ct in qs ==> DistinctIds(qs[ct])
    ensures v.DrainAll(types, v.Purge(types, qs).0, None).hits == v.HitsOf(types, qs)
  {
    DrainTakesEarliest(v, types, v.Purge(types, qs).0, None);
    PurgeKeepsHits(v, types, types, qs);
  }

  lemma {:induction false} PurgeKeepsHits(v: View, types: seq<CommandType>, shown: seq<CommandType>, qs: Queues)
    requires Distinct(types) && Distinct(shown) && forall ct :: ct in qs ==> DistinctIds(qs[ct])
    ensures v.HitsOf(shown, v.Purge(types, qs).0) == v.HitsOf(shown, qs)
  {
    if types != [] {
      if types[0] in qs {
        var q := qs[types[0]];
        var rest := Without(q, Elements(v.ExpiredIds(q)));
        forall c | c in q && c.id in Elements(v.ExpiredIds(q))
          ensures v.Expired(c)
        {
          ExpiredExact(v, q, c);
        }
        HitsSurvivePurge(v, q, Elements(v.ExpiredIds(q)));
        WithoutDistinct(q, Elements(v.ExpiredIds(q)));
        PurgeKeepsHits(v, types[1..], shown, qs[types[0] := rest]);
        SameHits(v, shown, qs, types[0], rest);
      } else {
        PurgeKeepsHits(v, types[1..], shown, qs);
      }
    }
  }

  lemma {:induction false} SameHits(v: View, types: seq<CommandType>, qs: Queues, ct: CommandType, q: seq<Command>)
    requires ct in qs && v.Hits(q) == v.Hits(qs[ct])
    ensures v.HitsOf(types, qs[ct := q]) == v.HitsOf(types, qs)
  {
    if types != [] {
      SameHits(v, types[1..], qs, ct, q);
    }
  }

  // ---- The channel ----

  // One session: its queues, and their types in the order they were first used.
  datatype Partition = Partition(order: seq<CommandType>, queues: Queues)

  type Home = map<string, (string, CommandType)>

  function QueueAt(queues: map<string, Partition>, sid: string, ct: CommandType): seq<Command> {
    if sid in queues && ct in queues[sid].queues then queues[sid].queues[ct] else []
  }

  ghost predicate QueueOk(q: seq<Command>, sid: string, ct: CommandType, created: map<string, real>, home: Home) {
    && DistinctIds(q)
    && forall c :: c in q ==>
         c.scope.sessionId == sid && c.kind == ct && c.id in created && c.id in home && home[c.id] == (sid, ct)
  }

  ghost predicate OrderOk(p: Partition) {
    Distinct(p.order) && Elements(p.order) == p.queues.Keys
  }

  ghost predicate Queued(queues: map<string, Partition>, home: Home, id: string) {
    id in home && id in Ids(QueueAt(queues, home[id].0, home[id].1))
  }

  /** `home` remembers where each id ever sent was queued.  Every queue sits under
      its own session and type, the index holds exactly the ids still queued, and
      what was drained is queued no more. */
  ghost predicate Consistent(queues: map<string, Partition>, created: map<string, real>, home: Home,
                             drained: seq<string>)
  {
    && (forall sid {:trigger OrderOk(queues[sid])} :: sid in queues ==> OrderOk(queues[sid]))
    && (forall sid, ct {:trigger QueueOk(QueueAt(queues, sid, ct), sid, ct, created, home)} ::
          QueueOk(QueueAt(queues, sid, ct), sid, ct, created, home))
    && (forall id {:trigger Queued(queues, home, id)} :: id in created ==> Queued(queues, home, id))
    && DrainedOk(drained, created, home)
  }

  ghost predicate DrainedOk(drained: seq<string>, created: map<string, real>, home: Home) {
    && Distinct(drained)
    && forall k {:trigger drained[k]} :: 0 <= k < |drained| ==> drained[k] in home && drained[k] !in created
  }

  /** In every valid state the index holds exactly the ids still queued. */
  lemma IndexIsExact(queues: map<string, Partition>, created: map<string, real>, home: Home, drained: seq<string>,
                     id: string)
    requires Consistent(queues, created, home, drained)
    ensures id in created <==> exists sid, ct :: id in Ids(QueueAt(queues, sid, ct))
  {
    assert id in created ==> Queued(queues, home, id);
    if sid, ct :| id in Ids(QueueAt(queues, sid, ct)) {
      assert QueueOk(QueueAt(queues, sid, ct), sid, ct, created, home);
    }
  }

  /** No id is handed out twice, and none handed out is queued again: two hits of
      the drain history differ and neither is in any queue. */
  lemma DrainedOnce(queues: map<string, Partition>, created: map<string, real>, home: Home, drained: seq<string>,
                    i: nat, j: nat)
    requires Consistent(queues, created, home, drained) && i < j < |drained|
    ensures drained[i] != drained[j]
    ensures forall sid, ct :: drained[i] !in Ids(QueueAt(queues, sid, ct))
  {
    IndexIsExact(queues, created, home, drained, drained[i]);
  }

  lemma {:induction false} IdSeqMembers(q: seq<Command>)
    requires DistinctIds(q)
    ensures Elements(IdSeq(q)) == Ids(q) && Distinct(IdSeq(q))
  {
    if q != [] {
      IdSeqMembers(q[1..]);
      assert q == [q[0]] + q[1..];
      assert q[0].id !in Ids(q[1..]);
      assert q[0].id !in Elements(IdSeq(q[1..]));
      ElementsCons(q[0].id, IdSeq(q[1..]));
    }
  }

  function Shrunk(queues: map<string, Partition>, sid: string, ct: CommandType,
                  out: set<string>): map<string, Partition>
    requires sid in queues && ct in queues[sid].queues
  {
    queues[sid := queues[sid].(queues := queues[sid].queues[ct := Without(queues[sid].queues[ct], out)])]
  }

  lemma ShrunkQueueOk(queues: map<string, Partition>, created: map<string, real>, home: Home, sid: string,
                      ct: CommandType,
                      out: set<string>, s: string, t: CommandType)
    requires sid in queues && ct in queues[sid].queues && out <= Ids(queues[sid].queues[ct])
    requires QueueOk(QueueAt(queues, sid, ct), sid, ct, created, home)
    requires QueueOk(QueueAt(queues, s, t), s, t, created, home)
    ensures QueueOk(QueueAt(Shrunk(queues, sid, ct, out), s, t), s, t, created - out, home)
  {
    var q := QueueAt(queues, sid, ct);
    if (s, t) == (sid, ct) {
      WithoutDistinct(q, out);
    } else {
      OutsideUntouched(QueueAt(queues, s, t), q, home, (s, t), (sid, ct), out);
    }
  }

  /** Replacing one queue by a part of it, and dropping the ids that left from the
      index, keeps the channel consistent; the ids taken out join the drained. */
  lemma ShrinkQueue(queues: map<string, Partition>, created: map<string, real>, home: Home, drained: seq<string>,
                    sid: string, ct: CommandType, out: set<string>, taken: seq<string>)
    requires Consistent(queues, created, home, drained)
    requires sid in queues && ct in queues[sid].queues
    requires out <= Ids(queues[sid].queues[ct]) && Distinct(taken) && Elements(taken) <= out
    ensures Consistent(Shrunk(queues, sid, ct, out), created - out, home, drained + taken)
  {
    var q := QueueAt(queues, sid, ct);
    var queues' := Shrunk(queues, sid, ct, out);
    assert QueueOk(q, sid, ct, created, home);
    forall s, t
      ensures QueueOk(QueueAt(queues', s, t), s, t, created - out, home)
    {
      assert QueueOk(QueueAt(queues, s, t), s, t, created, home);
      ShrunkQueueOk(queues, created, home, sid, ct, out, s, t);
    }
    forall id | id in created - out
      ensures Queued(queues', home, id)
    {
      assert Queued(queues, home, id);
    }
    assert OrderOk(queues[sid]);
    assert queues'[sid].queues.Keys == queues[sid].queues.Keys;
    JoinDrained(drained, taken, out, created, home, q, (sid, ct));
  }

  lemma OutsideUntouched(other: seq<Command>, q: seq<Command>, home: Home, there: (string, CommandType),
                         here: (string, CommandType), out: set<string>)
    requires there != here && out <= Ids(q)
    requires forall c :: c in q ==> c.id in home && home[c.id] == here
    requires forall c :: c in other ==> c.id in home && home[c.id] == there
    ensures forall c :: c in other ==> c.id !in out
  {
  }

  lemma JoinDrained(drained: seq<string>, taken: seq<string>, out: set<string>, created: map<string, real>, home: Home,
                    q: seq<Command>, here: (string, CommandType))
    requires Distinct(drained) && Distinct(taken) && Elements(taken) <= out && out <= Ids(q)
    requires forall id :: id in drained ==> id in home && id !in created
    requires forall c :: c in q ==> c.id in created && c.id in home
    ensures Distinct(drained + taken)
    ensures forall id :: id in drained + taken ==> id in home && id !in created - out
  {
    forall id | id in taken
      ensures id in created && id in home && id in out
    {
      assert id in Elements(taken);
    }
    forall i, j | 0 <= i < |drained| && 0 <= j < |taken|
      ensures drained[i] != taken[j]
    {
      assert drained[i] in drained && taken[j] in taken;
    }
  }

  lemma {:induction false} WithoutDistinct(q: seq<Command>, ids: set<string>)
    requires DistinctIds(q)
    ensures DistinctIds(Without(q, ids))
  {
    if q != [] {
      WithoutDistinct(q[1..], ids);
    }
  }

  /** Only the queues of session `sid` may differ. */
  ghost predicate OnlySession(queues: map<string, Partition>, queues': map<string, Partition>, sid: string) {
    && sid in queues && sid in queues'
    && queues' == queues[sid := queues[sid].(queues := queues'[sid].queues)]
  }

  lemma OrderOf(queues: map<string, Partition>, created: map<string, real>, home: Home, drained: seq<string>,
                sid: string)
    requires Consistent(queues, created, home, drained) && sid in queues
    ensures OrderOk(queues[sid])
  {
  }

  lemma ScanKeeps(v: View, queues: map<string, Partition>, created: map<string, real>, home: Home, drained: seq<string>,
                  sid: string, ct: CommandType, room: Option<nat>)
    requires Consistent(queues, created, home, drained) && v.created == created
    requires sid in queues && ct in queues[sid].queues
    ensures DistinctIds(queues[sid].queues[ct])
    ensures var p := queues[sid]; var s := v.Scan(p.queues[ct], room);
      && (room.Some? ==> |s.hits| <= room.value)
      && Consistent(queues[sid := p.(queues := p.queues[ct := s.rest])], created - (Ids(s.hits) + Elements(s.gone)),
                    home, drained + IdSeq(s.hits))
  {
    var p := queues[sid];
    var q := p.queues[ct];
    var s := v.Scan(q, room);
    assert QueueOk(QueueAt(queues, sid, ct), sid, ct, created, home);
    ScanTakesEarliest(v, q, room);
    ScanSplits(v, q, room);
    HitsDistinct(v, q, room);
    TakenIds(v, q, room);
    IdSeqMembers(s.hits);
    ShrinkQueue(queues, created, home, drained, sid, ct, TakenOut(v, q, room), IdSeq(s.hits));
  }

  function IdsOver(p: Partition, types: set<CommandType>): set<string> {
    set ct, c | ct in types && ct in p.queues && c in p.queues[ct] :: c.id
  }

  function SessionIds(p: Partition): set<string> {
    IdsOver(p, p.queues.Keys)
  }

  /** The ids of one session leave, the rest of the channel stays as it was. */
  lemma CleanupKeeps(queues: map<string, Partition>, created: map<string, real>, home: Home, drained: seq<string>,
                     sid: string)
    requires Consistent(queues, created, home, drained)
    ensures forall id :: id in created ==> id in home
    ensures var out := if sid in queues then SessionIds(queues[sid]) else {};
      && (forall id :: id in created ==> (id in out <==> home[id].0 == sid))
      && Consistent(queues - {sid}, created - out, home, drained)
  {
    var out := if sid in queues then SessionIds(queues[sid]) else {};
    forall id | id in created
      ensures id in home && (id in out <==> home[id].0 == sid)
    {
      assert Queued(queues, home, id);
      var c :| c in QueueAt(queues, home[id].0, home[id].1) && c.id == id;
      if home[id].0 == sid {
        assert home[id].1 in queues[sid].queues && c in queues[sid].queues[home[id].1];
      }
      if id in out {
        var ct, d :| ct in queues[sid].queues && d in queues[sid].queues[ct] && d.id == id;
        assert QueueOk(QueueAt(queues, sid, ct), sid, ct, created, home);
      }
    }
    forall s, t
      ensures QueueOk(QueueAt(queues - {sid}, s, t), s, t, created - out, home)
    {
      assert QueueOk(QueueAt(queues, s, t), s, t, created, home);
    }
    forall id | id in created - out
      ensures Queued(queues - {sid}, home, id)
    {
      assert Queued(queues, home, id);
    }
    forall s | s in queues - {sid}
      ensures OrderOk((queues - {sid})[s])
    {
      assert OrderOk(queues[s]);
    }
    forall k | 0 <= k < |drained|
      ensures drained[k] in home && drained[k] !in created - out
    {
    }
  }

  lemma {:induction false} ExpiredMembers(v: View, q: seq<Command>)
    ensures forall id :: id in v.ExpiredIds(q) ==> id in Ids(q)
  {
    if q != [] {
      ExpiredMembers(v, q[1..]);
      assert q == [q[0]] + q[1..];
    }
  }

  lemma PurgeKeeps(v: View, queues: map<string, Partition>, created: map<string, real>, home: Home,
                   drained: seq<string>,
                   sid: string, ct: CommandType)
    requires Consistent(queues, created, home, drained)
    requires sid in queues && ct in queues[sid].queues
    ensures var p := queues[sid]; var gone := Elements(v.ExpiredIds(p.queues[ct]));
      Consistent(queues[sid := p.(queues := p.queues[ct := Without(p.queues[ct], gone)])],
                 created - gone, home, drained)
  {
    var p := queues[sid];
    var gone := Elements(v.ExpiredIds(p.queues[ct]));
    ExpiredMembers(v, p.queues[ct]);
    ShrinkQueue(queues, created, home, drained, sid, ct, gone, []);
    assert drained + [] == drained;
  }

  lemma ViewFrame(v: View, queues: map<string, Partition>, created: map<string, real>, home: Home, drained: seq<string>,
                  sid: string, ct: CommandType, removed: set<string>)
    requires Consistent(queues, created, home, drained) && created == v.created - removed
    requires sid in queues && ct in queues[sid].queues
    ensures var q := queues[sid].queues[ct]; var v' := v.(created := created);
      v'.Hits(q) == v.Hits(q) && v'.ExpiredIds(q) == v.ExpiredIds(q)
  {
    var q := queues[sid].queues[ct];
    assert QueueOk(QueueAt(queues, sid, ct), sid, ct, created, home);
    ScanFrame(v.(created := created), v, q, None);
    UnlimitedScan(v, q);
    UnlimitedScan(v.(created := created), q);
  }

  /** The state of a peek before round `i`. */
  ghost predicate PeekRound(v: View, types: seq<CommandType>, before: Queues, i: nat,
                            result: seq<Command>, gone: seq<string>, qs: Queues, created: map<string, real>)
  {
    && i <= |types|
    && created == v.created - Elements(gone)
    && v.HitsOf(types, before) == result + v.HitsOf(types[i..], qs)
    && v.Purge(types, before) == (v.Purge(types[i..], qs).0, gone + v.Purge(types[i..], qs).1)
  }

  lemma PeekStarts(v: View, types: seq<CommandType>, before: Queues)
    ensures PeekRound(v, types, before, 0, [], [], before, v.created)
  {
    assert types[0..] == types;
    assert [] + v.HitsOf(types, before) == v.HitsOf(types, before);
    assert [] + v.Purge(types, before).1 == v.Purge(types, before).1;
    assert Elements<string>([]) == {} && v.created - {} == v.created;
  }

  lemma PeekSkips(v: View, types: seq<CommandType>, before: Queues, i: nat,
                  result: seq<Command>, gone: seq<string>, qs: Queues, created: map<string, real>)
    requires i < |types| && PeekRound(v, types, before, i, result, gone, qs, created)
    ensures types[i] !in qs ==> PeekRound(v, types, before, i + 1, result, gone, qs, created)
  {
    assert types[i..][1..] == types[i + 1..];
  }

  lemma PeekScans(v: View, types: seq<CommandType>, before: Queues, i: nat,
                  result: seq<Command>, gone: seq<string>, qs: Queues, created: map<string, real>)
    requires i < |types| && types[i] in qs && Distinct(types)
    requires PeekRound(v, types, before, i, result, gone, qs, created)
    requires v.(created := created).Hits(qs[types[i]]) == v.Hits(qs[types[i]])
    requires v.(created := created).ExpiredIds(qs[types[i]]) == v.ExpiredIds(qs[types[i]])
    ensures var out := v.(created := created).ExpiredIds(qs[types[i]]);
      PeekRound(v, types, before, i + 1, result + v.(created := created).Hits(qs[types[i]]), gone + out,
                qs[types[i] := Without(qs[types[i]], Elements(out))], created - Elements(out))
  {
    assert types[i..][1..] == types[i + 1..];
    var q := qs[types[i]];
    var out := v.ExpiredIds(q);
    var qs' := qs[types[i] := Without(q, Elements(out))];
    JoinRemoved(v.created, Elements(gone), Elements(out));
    HitsFrame(v, types[i + 1..], qs, types[i], Without(q, Elements(out)));
    assert result + (v.Hits(q) + v.HitsOf(types[i + 1..], qs')) == result + v.Hits(q) + v.HitsOf(types[i + 1..], qs');
    assert gone + (out + v.Purge(types[i + 1..], qs').1) == gone + out + v.Purge(types[i + 1..], qs').1;
  }

  /** The queues still hold only indexed ids, so what was removed from the index
      does not change a later scan. */
  lemma IndexFrame(v: View, queues: map<string, Partition>, created: map<string, real>, home: Home,
                   drained: seq<string>,
                   sid: string, ct: CommandType, removed: set<string>, room: Option<nat>)
    requires Consistent(queues, created, home, drained) && created == v.created - removed
    requires sid in queues && ct in queues[sid].queues
    ensures v.(created := created).Scan(queues[sid].queues[ct], room) == v.Scan(queues[sid].queues[ct], room)
  {
    assert QueueOk(QueueAt(queues, sid, ct), sid, ct, created, home);
    ScanFrame(v.(created := created), v, queues[sid].queues[ct], room);
  }

  lemma JoinRemoved<T>(m: map<string, T>, a: set<string>, b: set<string>)
    ensures (m - a) - b == m - (a + b)
  {
  }

  /** The scan of `q` is what has been collected from `q[..i]` plus the scan of
      the rest. */
  ghost predicate Progress(v: View, q: seq<Command>, room: Option<nat>, i: nat,
                           hits: seq<Command>, expired: seq<string>, kept: seq<Command>)
  {
    && i <= |q|
    && var r := v.Scan(q[i..], Less(room, |hits|));
       v.Scan(q, room) == Scanned(hits + r.hits, expired + r.gone, kept + r.rest)
  }

  lemma ProgressStep(v: View, q: seq<Command>, room: Option<nat>, i: nat,
                     hits: seq<Command>, expired: seq<string>, kept: seq<Command>)
    requires i < |q| && Progress(v, q, room, i, hits, expired, kept)
    requires room.Some? ==> |hits| < room.value
    ensures v.Expired(q[i]) ==> Progress(v, q, room, i + 1, hits, expired + [q[i].id], kept)
    ensures !v.Expired(q[i]) && !ScopeMatches(q[i].scope, v.target) ==>
      Progress(v, q, room, i + 1, hits, expired, kept + [q[i]])
    ensures v.Hit(q[i]) ==> Progress(v, q, room, i + 1, hits + [q[i]], expired, kept)
  {
    assert q[i..][1..] == q[i + 1..];
    assert Less(Less(room, |hits|), 1) == Less(room, |hits + [q[i]]|);
    var room' := Less(room, |hits|);
    if v.Expired(q[i]) {
      var t := v.Scan(q[i + 1..], room');
      assert expired + ([q[i].id] + t.gone) == expired + [q[i].id] + t.gone;
    } else if !ScopeMatches(q[i].scope, v.target) {
      var t := v.Scan(q[i + 1..], room');
      assert kept + ([q[i]] + t.rest) == kept + [q[i]] + t.rest;
    } else {
      var t := v.Scan(q[i + 1..], Less(room', 1));
      assert hits + ([q[i]] + t.hits) == hits + [q[i]] + t.hits;
    }
  }

  /** Draining `types` is what has been collected from `types[..i]` plus draining
      the rest of the types. */
  ghost predicate DrainProgress(v: View, types: seq<CommandType>, before: Queues, room: Option<nat>, i: nat,
                                matched: seq<Command>, gone: seq<string>, qs: Queues)
  {
    && i <= |types|
    && var r := v.DrainAll(types[i..], qs, Less(room, |matched|));
       v.DrainAll(types, before, room) == Drained(matched + r.hits, gone + r.gone, r.queues)
  }

  lemma DrainStep(v: View, types: seq<CommandType>, before: Queues, room: Option<nat>, i: nat,
                  matched: seq<Command>, gone: seq<string>, qs: Queues)
    requires i < |types| && DrainProgress(v, types, before, room, i, matched, gone, qs)
    requires room.Some? ==> |matched| < room.value
    ensures types[i] !in qs ==> DrainProgress(v, types, before, room, i + 1, matched, gone, qs)
    ensures types[i] in qs ==>
      var s := v.Scan(qs[types[i]], Less(room, |matched|));
      DrainProgress(v, types, before, room, i + 1, matched + s.hits, gone + s.gone, qs[types[i] := s.rest])
  {
    assert types[i..][1..] == types[i + 1..];
    if types[i] in qs {
      var room' := Less(room, |matched|);
      var s := v.Scan(qs[types[i]], room');
      ScanTakesEarliest(v, qs[types[i]], room');
      assert Less(room', |s.hits|) == Less(room, |matched + s.hits|);
      var t := v.DrainAll(types[i + 1..], qs[types[i] := s.rest], Less(room', |s.hits|));
      assert matched + (s.hits + t.hits) == matched + s.hits + t.hits;
      assert gone + (s.gone + t.gone) == gone + s.gone + t.gone;
    }
  }

  /** The state of a drain before round `i`. */
  ghost predicate Round(v: View, types: seq<CommandType>, before: Queues, room: Option<nat>, i: nat,
                        matched: seq<Command>, gone: seq<string>, qs: Queues, created: map<string, real>)
  {
    && (room.Some? ==> |matched| <= room.value)
    && created == v.created - (Ids(matched) + Elements(gone))
    && DrainProgress(v, types, before, room, i, matched, gone, qs)
  }

  lemma RoundScans(v: View, types: seq<CommandType>, before: Queues, room: Option<nat>, i: nat,
                   matched: seq<Command>, gone: seq<string>, qs: Queues, created: map<string, real>)
    requires i < |types| && Round(v, types, before, room, i, matched, gone, qs, created) && types[i] in qs
    requires room.Some? ==> |matched| < room.value
    requires v.(created := created).Scan(qs[types[i]], Less(room, |matched|))
          == v.Scan(qs[types[i]], Less(room, |matched|))
    ensures var s := v.(created := created).Scan(qs[types[i]], Less(room, |matched|));
      && IdSeq(matched + s.hits) == IdSeq(matched) + IdSeq(s.hits)
      && Round(v, types, before, room, i + 1, matched + s.hits, gone + s.gone, qs[types[i] := s.rest],
               created - (Ids(s.hits) + Elements(s.gone)))
  {
    var s := v.Scan(qs[types[i]], Less(room, |matched|));
    ScanTakesEarliest(v, qs[types[i]], Less(room, |matched|));
    DrainStep(v, types, before, room, i, matched, gone, qs);
    JoinIds(matched, s.hits);
    JoinRemoved(v.created, Ids(matched) + Elements(gone), Ids(s.hits) + Elements(s.gone));
    assert (Ids(matched) + Elements(gone)) + (Ids(s.hits) + Elements(s.gone))
        == Ids(matched + s.hits) + Elements(gone + s.gone);
  }

  function Room(limit: int): Option<nat> {
    if limit > 0 then Some(limit) else None
  }

  ghost function AnyOrder(commandTypes: Option<set<CommandType>>): (types: seq<CommandType>)
    ensures Distinct(types) && (commandTypes.Some? ==> Elements(types) == commandTypes.value)
  {
    if commandTypes.None? then [] else Enumerate(commandTypes.value)
  }

  ghost function Enumerate(s: set<CommandType>): (r: seq<CommandType>)
    ensures Distinct(r) && Elements(r) == s
  {
    if s == {} then []
    else
      var x :| x in s;
      var t := Enumerate(s - {x});
      ElementsSnoc(t, x);
      t + [x]
  }

  lemma JoinIds(a: seq<Command>, b: seq<Command>)
    ensures Ids(a + b) == Ids(a) + Ids(b)
    ensures IdSeq(a + b) == IdSeq(a) + IdSeq(b)
  {
    assert forall d :: d in a + b <==> d in a || d in b;
    if a == [] {
      assert a + b == b;
    } else {
      assert (a + b)[1..] == a[1..] + b;
      JoinIds(a[1..], b);
    }
  }

  lemma PrefixIds(q: seq<Command>, i: nat)
    requires i < |q| && DistinctIds(q)
    ensures q[i].id !in Ids(q[..i]) && Ids(q[..i + 1]) == Ids(q[..i]) + {q[i].id}
  {
    assert q[..i + 1] == q[..i] + [q[i]];
  }

  /** A scan depends on the index only at the ids of the queue. */
  lemma {:induction false} ScanFrame(v: View, v': View, q: seq<Command>, room: Option<nat>)
    requires v' == v.(created := v'.created)
    requires forall c :: c in q ==> c.id in v.created && c.id in v'.created && v.created[c.id] == v'.created[c.id]
    ensures v.Scan(q, room) == v'.Scan(q, room)
  {
    if q != [] && room != Some(0) {
      assert q[0] in q;
      ScanFrame(v, v', q[1..], room);
      ScanFrame(v, v', q[1..], Less(room, 1));
    }
  }

  /** The queues after a command is appended; a first use opens its queue. */
  function Sent(queues: map<string, Partition>, command: Command): map<string, Partition> {
    var sid, ct := command.scope.sessionId, command.kind;
    var p := if sid in queues then queues[sid] else Partition([], map[]);
    var order := if ct in p.queues then p.order else p.order + [ct];
    var q := if ct in p.queues then p.queues[ct] else [];
    queues[sid := Partition(order, p.queues[ct := q + [command]])]
  }

  /** Sending appends to one queue and leaves every other queue alone. */
  lemma SentQueues(queues: map<string, Partition>, command: Command, sid: string, ct: CommandType)
    ensures QueueAt(Sent(queues, command), sid, ct)
      == QueueAt(queues, sid, ct) + (if (sid, ct) == (command.scope.sessionId, command.kind) then [command] else [])
  {
    assert QueueAt(queues, sid, ct) + [] == QueueAt(queues, sid, ct);
  }

  /** The command is last in its own queue, a type first used now comes last, and nothing
      else changes. */
  ghost predicate AppendedTo(queues: map<string, Partition>, queues': map<string, Partition>, command: Command) {
    && (forall sid, ct :: QueueAt(queues', sid, ct) == AfterSend(QueueAt(queues, sid, ct), sid, ct, command))
    && (forall sid :: sid in queues ==> sid in queues' && queues[sid].order <= queues'[sid].order)
  }

  ghost function AfterSend(q: seq<Command>, sid: string, ct: CommandType, command: Command): seq<Command> {
    if sid == command.scope.sessionId && ct == command.kind then q + [command] else q
  }

  lemma SentAppends(queues: map<string, Partition>, command: Command)
    ensures AppendedTo(queues, Sent(queues, command), command)
  {
    forall sid, ct
      ensures QueueAt(Sent(queues, command), sid, ct) == AfterSend(QueueAt(queues, sid, ct), sid, ct, command)
    {
      SentQueues(queues, command, sid, ct);
    }
  }

  lemma SentOrder(queues: map<string, Partition>, command: Command)
    requires forall sid :: sid in queues ==> OrderOk(queues[sid])
    ensures forall sid :: sid in Sent(queues, command) ==> OrderOk(Sent(queues, command)[sid])
  {
    var sid, ct := command.scope.sessionId, command.kind;
    var p := if sid in queues then queues[sid] else Partition([], map[]);
    ElementsSnoc(p.order, ct);
    if sid in queues {
      assert OrderOk(queues[sid]);
    }
  }

  lemma SendKeeps(queues: map<string, Partition>, created: map<string, real>, home: Home, drained: seq<string>,
                  command: Command, now: real)
    requires Consistent(queues, created, home, drained) && command.id !in home
    ensures Consistent(Sent(queues, command), created[command.id := now],
                       home[command.id := (command.scope.sessionId, command.kind)], drained)
  {
    var sid, ct := command.scope.sessionId, command.kind;
    var queues' := Sent(queues, command);
    var created', home' := created[command.id := now], home[command.id := (sid, ct)];
    SentOrder(queues, command);
    assert command.id !in created by {
      assert command.id in created ==> Queued(queues, home, command.id);
    }
    forall s, t
      ensures QueueOk(QueueAt(queues', s, t), s, t, created', home')
    {
      assert QueueOk(QueueAt(queues, s, t), s, t, created, home);
      SentQueues(queues, command, s, t);
    }
    forall id | id in created'
      ensures Queued(queues', home', id)
    {
      if id != command.id {
        assert Queued(queues, home, id);
      }
      SentQueues(queues, command, home'[id].0, home'[id].1);
    }
  }

  // ---- Drain and peek in terms of times ----

  // When a command was sent, how long it lives and whether it is in scope; these say
  // what the two calls promise without the scan.
  predicate InTime(c: Command, age: real, ttl: real) {
    age <= if c.ttlSeconds.Some? then c.ttlSeconds.value else ttl
  }

  predicate InScope(c: Command, target: Scope) {
    && c.scope.sessionId == target.sessionId
    && (target.agentId.None? || c.scope.agentId == target.agentId)
    && (target.turnId.None? || c.scope.turnId == target.turnId)
  }

  /** The command is queued for the session under one of the types looked at. */
  predicate Among(c: Command, qs: Queues, types: seq<CommandType>) {
    c.kind in types && c.kind in qs && c in qs[c.kind]
  }

  /** A queued command that lives at `now`, and one that does not. */
  predicate Lives(c: Command, created: map<string, real>, now: real, ttl: real) {
    c.id in created && InTime(c, now - created[c.id], ttl)
  }

  predicate Outlived(c: Command, created: map<string, real>, now: real, ttl: real) {
    c.id in created && !InTime(c, now - created[c.id], ttl)
  }

  predicate Wanted(c: Command, qs: Queues, types: seq<CommandType>, target: Scope, created: map<string, real>,
                   now: real, ttl: real)
  {
    Among(c, qs, types) && InScope(c, target) && Lives(c, created, now, ttl)
  }

  /** Commands of one type come in the order they were sent. */
  ghost predicate InSendingOrder(commands: seq<Command>, qs: Queues) {
    forall a, b :: 0 <= a < b < |commands| && commands[a].kind == commands[b].kind ==>
      commands[a].kind in qs && Before(commands[a], commands[b], qs[commands[a].kind])
  }

  ghost predicate Before(c: Command, d: Command, q: seq<Command>) {
    exists i, j :: 0 <= i < j < |q| && q[i] == c && q[j] == d
  }

  /** Sent earlier, under the same type. */
  ghost predicate Earlier(d: Command, c: Command, qs: Queues) {
    d.kind == c.kind && d.kind in qs && Before(d, c, qs[d.kind])
  }

  /** The queues of a session as a valid channel has them. */
  ghost predicate QueuesOk(qs: Queues, created: map<string, real>) {
    forall ct :: ct in qs ==> forall c :: c in qs[ct] ==> c.kind == ct && c.id in created
  }

  lemma ValidQueues(queues: map<string, Partition>, created: map<string, real>, home: Home, drained: seq<string>,
                    sid: string)
    requires Consistent(queues, created, home, drained) && sid in queues
    ensures QueuesOk(queues[sid].queues, created) && QueuesDistinct(queues[sid].queues)
  {
    forall ct | ct in queues[sid].queues
      ensures forall c :: c in queues[sid].queues[ct] ==> c.kind == ct && c.id in created
      ensures DistinctIds(queues[sid].queues[ct])
    {
      assert QueueOk(QueueAt(queues, sid, ct), sid, ct, created, home);
    }
  }

  lemma ExpiredMeans(v: View, c: Command)
    requires c.id in v.created
    ensures v.Expired(c) <==> Outlived(c, v.created, v.now, v.ttl)
    ensures v.Hit(c) <==> Lives(c, v.created, v.now, v.ttl) && InScope(c, v.target)
  {
  }

  lemma {:induction false} HitsExact(v: View, q: seq<Command>, c: Command)
    ensures c in v.Hits(q) <==> c in q && v.Hit(c)
  {
    if q != [] {
      HitsExact(v, q[1..], c);
      assert q == [q[0]] + q[1..];
    }
  }

  lemma {:induction false} HitsOfExact(v: View, types: seq<CommandType>, qs: Queues, c: Command)
    requires QueuesOk(qs, v.created)
    ensures c in v.HitsOf(types, qs) <==> Wanted(c, qs, types, v.target, v.created, v.now, v.ttl)
  {
    if types != [] {
      HitsOfExact(v, types[1..], qs, c);
      assert types == [types[0]] + types[1..];
      if types[0] in qs {
        HitsExact(v, qs[types[0]], c);
      }
      if c.id in v.created {
        ExpiredMeans(v, c);
      }
    }
  }

  lemma {:induction false} HitsOrdered(v: View, q: seq<Command>, a: nat, b: nat)
    requires a < b < |v.Hits(q)|
    ensures Before(v.Hits(q)[a], v.Hits(q)[b], q)
  {
    var rest := v.Hits(q[1..]);
    if v.Hit(q[0]) {
      if a == 0 {
        assert v.Hits(q)[b] == rest[b - 1] && rest[b - 1] in rest;
        HitsExact(v, q[1..], rest[b - 1]);
        var j :| 0 <= j < |q[1..]| && q[1..][j] == rest[b - 1];
        assert q[0] == v.Hits(q)[0] && q[j + 1] == v.Hits(q)[b];
      } else {
        HitsOrdered(v, q[1..], a - 1, b - 1);
        BeforeTail(v.Hits(q)[a], v.Hits(q)[b], q);
      }
    } else {
      HitsOrdered(v, q[1..], a, b);
      BeforeTail(v.Hits(q)[a], v.Hits(q)[b], q);
    }
  }

  lemma BeforeTail(c: Command, d: Command, q: seq<Command>)
    requires q != [] && Before(c, d, q[1..])
    ensures Before(c, d, q)
  {
    var i, j :| 0 <= i < j < |q[1..]| && q[1..][i] == c && q[1..][j] == d;
    assert q[i + 1] == c && q[j + 1] == d;
  }

  lemma {:induction false} HitsOfOrdered(v: View, types: seq<CommandType>, qs: Queues)
    requires QueuesOk(qs, v.created) && Distinct(types)
    ensures InSendingOrder(v.HitsOf(types, qs), qs)
  {
    if types != [] {
      var all, rest := v.HitsOf(types, qs), v.HitsOf(types[1..], qs);
      var first := if types[0] in qs then v.Hits(qs[types[0]]) else [];
      HitsOfOrdered(v, types[1..], qs);
      forall a, b | 0 <= a < b < |all| && all[a].kind == all[b].kind
        ensures all[a].kind in qs && Before(all[a], all[b], qs[all[a].kind])
      {
        if a < |first| {
          HitsExact(v, qs[types[0]], all[a]);
          assert first[a] in first;
          if b < |first| {
            HitsOrdered(v, qs[types[0]], a, b);
          } else {
            assert rest[b - |first|] in rest;
            HitsOfExact(v, types[1..], qs, rest[b - |first|]);
          }
        } else {
          assert all[a] == rest[a - |first|] && all[b] == rest[b - |first|];
        }
      }
    }
  }

  lemma {:induction false} RestMembers(v: View, q: seq<Command>, room: Option<nat>, c: Command)
    requires c in v.Scan(q, room).rest
    ensures c in q
  {
    if q != [] && room != Some(0) {
      assert q == [q[0]] + q[1..];
      if c != q[0] {
        RestMembers(v, q[1..], if v.Hit(q[0]) then Less(room, 1) else room, c);
      }
    }
  }

  /** The id belongs to a queued command that outlived its time. */
  ghost predicate Overdue(id: string, qs: Queues, types: seq<CommandType>, created: map<string, real>, now: real,
                          ttl: real)
  {
    exists c :: Among(c, qs, types) && c.id == id && Outlived(c, created, now, ttl)
  }

  lemma {:induction false} DrainedGone(v: View, types: seq<CommandType>, qs: Queues, room: Option<nat>, id: string)
    requires QueuesOk(qs, v.created) && Distinct(types) && id in v.DrainAll(types, qs, room).gone
    ensures Overdue(id, qs, types, v.created, v.now, v.ttl)
  {
    if types[0] !in qs {
      DrainedGone(v, types[1..], qs, room, id);
      OverdueMore(id, qs, qs, types, v);
    } else {
      var s := v.Scan(qs[types[0]], room);
      if id in s.gone {
        ScanMembers(v, qs[types[0]], room);
        var c :| c in qs[types[0]] && c.id == id && v.Expired(c);
        ExpiredMeans(v, c);
        assert Among(c, qs, types);
      } else {
        var qs' := qs[types[0] := s.rest];
        forall c | c in s.rest
          ensures c in qs[types[0]]
        {
          RestMembers(v, qs[types[0]], room, c);
        }
        DrainedGone(v, types[1..], qs', Less(room, |s.hits|), id);
        OverdueMore(id, qs, qs', types, v);
      }
    }
  }

  lemma OverdueMore(id: string, qs: Queues, qs': Queues, types: seq<CommandType>, v: View)
    requires types != [] && Distinct(types) && Overdue(id, qs', types[1..], v.created, v.now, v.ttl)
    requires forall ct :: ct in types[1..] ==> (ct in qs <==> ct in qs') && (ct in qs ==> qs[ct] == qs'[ct])
    ensures Overdue(id, qs, types, v.created, v.now, v.ttl)
  {
    var c :| Among(c, qs', types[1..]) && c.id == id && Outlived(c, v.created, v.now, v.ttl);
    assert Among(c, qs, types);
  }

  lemma {:induction false} PurgedExactly(v: View, types: seq<CommandType>, qs: Queues, id: string)
    requires QueuesOk(qs, v.created) && Distinct(types)
    ensures id in v.Purge(types, qs).1 <==> Overdue(id, qs, types, v.created, v.now, v.ttl)
  {
    if types != [] {
      var ct := types[0];
      if ct !in qs {
        PurgedExactly(v, types[1..], qs, id);
        OverdueStep(v, types, qs, qs, id);
      } else {
        var gone := v.ExpiredIds(qs[ct]);
        var qs' := qs[ct := Without(qs[ct], Elements(gone))];
        PurgedExactly(v, types[1..], qs', id);
        OverdueStep(v, types, qs, qs', id);
        ExpiredIdsExact(v, qs[ct], id);
      }
    }
  }

  lemma {:induction false} ExpiredIdsExact(v: View, q: seq<Command>, id: string)
    ensures id in v.ExpiredIds(q) <==> exists c :: c in q && c.id == id && v.Expired(c)
  {
    if q != [] {
      ExpiredIdsExact(v, q[1..], id);
      assert q == [q[0]] + q[1..];
    }
  }

  lemma OverdueStep(v: View, types: seq<CommandType>, qs: Queues, qs': Queues, id: string)
    requires types != [] && Distinct(types) && QueuesOk(qs, v.created)
    requires forall ct :: ct in types[1..] ==> (ct in qs <==> ct in qs') && (ct in qs ==> qs[ct] == qs'[ct])
    ensures Overdue(id, qs, types, v.created, v.now, v.ttl) <==>
      || Overdue(id, qs', types[1..], v.created, v.now, v.ttl)
      || (types[0] in qs && exists c :: c in qs[types[0]] && c.id == id && v.Expired(c))
  {
    assert types == [types[0]] + types[1..];
    if Overdue(id, qs, types, v.created, v.now, v.ttl) {
      var c :| Among(c, qs, types) && c.id == id && Outlived(c, v.created, v.now, v.ttl);
      ExpiredMeans(v, c);
      if c.kind != types[0] {
        assert Among(c, qs', types[1..]);
      }
    }
    if Overdue(id, qs', types[1..], v.created, v.now, v.ttl) {
      OverdueMore(id, qs, qs', types, v);
    }
    if types[0] in qs {
      forall c | c in qs[types[0]] && c.id == id && v.Expired(c)
        ensures Overdue(id, qs, types, v.created, v.now, v.ttl)
      {
        ExpiredMeans(v, c);
        assert Among(c, qs, types);
      }
    }
  }

  /** What a drain promises: it hands out wanted commands only, those of a type in sending
      order and none before an earlier one, at most `limit` of them; all that are wanted if
      it stays below the limit or has none; and what else it forgets is overdue. */
  ghost predicate DrainPromise(matched: seq<Command>, qs: Queues, types: seq<CommandType>, target: Scope, limit: int,
                               created: map<string, real>, created': map<string, real>, now: real, ttl: real)
  {
    && (forall c :: c in matched ==> Wanted(c, qs, types, target, created, now, ttl) && c.id !in created')
    && InSendingOrder(matched, qs)
    && (forall c, d :: c in matched && Wanted(d, qs, types, target, created, now, ttl) && Earlier(d, c, qs) ==>
          d in matched)
    && (limit > 0 ==> |matched| <= limit)
    && (limit <= 0 || |matched| < limit ==>
          forall c :: Wanted(c, qs, types, target, created, now, ttl) ==> c in matched)
    && (forall id :: id in created && id !in created' ==>
          id in Ids(matched) || Overdue(id, qs, types, created, now, ttl))
  }

  /** What a peek promises: it shows exactly the wanted commands, those of a type in
      sending order, and forgets exactly what is overdue. */
  ghost predicate PeekPromise(shown: seq<Command>, qs: Queues, types: seq<CommandType>, target: Scope,
                              created: map<string, real>, created': map<string, real>, now: real, ttl: real)
  {
    && (forall c :: c in shown <==> Wanted(c, qs, types, target, created, now, ttl))
    && InSendingOrder(shown, qs)
    && (forall id :: id in created ==> (id !in created' <==> Overdue(id, qs, types, created, now, ttl)))
  }

  ghost predicate QueuesDistinct(qs: Queues) {
    forall ct :: ct in qs ==> DistinctIds(qs[ct])
  }

  lemma NotBoth(c: Command, d: Command, q: seq<Command>)
    requires DistinctIds(q)
    ensures !(Before(c, d, q) && Before(d, c, q))
  {
    if Before(c, d, q) {
      var i, j :| 0 <= i < j < |q| && q[i] == c && q[j] == d;
      forall k, l | 0 <= k < l < |q| && q[k] == d
        ensures q[l] != c
      {
        assert k == j;
      }
    }
  }

  lemma TakenEarliest(hits: seq<Command>, matched: seq<Command>, qs: Queues, c: Command, d: Command)
    requires matched <= hits && InSendingOrder(hits, qs) && QueuesDistinct(qs)
    requires c in matched && d in hits && Earlier(d, c, qs)
    ensures d in matched
  {
    var a :| 0 <= a < |matched| && matched[a] == c;
    var b :| 0 <= b < |hits| && hits[b] == d;
    assert hits[a] == c;
    var q := qs[d.kind];
    var i, j :| 0 <= i < j < |q| && q[i] == d && q[j] == c;
    assert c.id != d.id;
    if a < b {
      NotBoth(c, d, q);
    } else {
      assert matched[b] == d;
    }
  }

  lemma DrainPromised(v: View, types: seq<CommandType>, qs: Queues, limit: int, created': map<string, real>)
    requires QueuesOk(qs, v.created) && QueuesDistinct(qs) && Distinct(types)
    requires var r := v.DrainAll(types, qs, Room(limit)); created' == v.created - (Ids(r.hits) + Elements(r.gone))
    ensures DrainPromise(v.DrainAll(types, qs, Room(limit)).hits, qs, types, v.target, limit, v.created, created',
                         v.now, v.ttl)
  {
    var r, hits := v.DrainAll(types, qs, Room(limit)), v.HitsOf(types, qs);
    DrainTakesEarliest(v, types, qs, Room(limit));
    HitsOfOrdered(v, types, qs);
    forall c
      ensures c in hits <==> Wanted(c, qs, types, v.target, v.created, v.now, v.ttl)
    {
      HitsOfExact(v, types, qs, c);
    }
    assert r.hits <= hits;
    assert forall a :: 0 <= a < |r.hits| ==> r.hits[a] == hits[a];
    forall c, d | c in r.hits && d in hits && Earlier(d, c, qs)
      ensures d in r.hits
    {
      TakenEarliest(hits, r.hits, qs, c, d);
    }
    forall id | id in r.gone
      ensures Overdue(id, qs, types, v.created, v.now, v.ttl)
    {
      DrainedGone(v, types, qs, Room(limit), id);
    }
  }

  lemma PeekPromised(v: View, types: seq<CommandType>, qs: Queues, created': map<string, real>)
    requires QueuesOk(qs, v.created) && Distinct(types)
    requires created' == v.created - Elements(v.Purge(types, qs).1)
    ensures PeekPromise(v.HitsOf(types, qs), qs, types, v.target, v.created, created', v.now, v.ttl)
  {
    HitsOfOrdered(v, types, qs);
    forall c
      ensures c in v.HitsOf(types, qs) <==> Wanted(c, qs, types, v.target, v.created, v.now, v.ttl)
    {
      HitsOfExact(v, types, qs, c);
    }
    forall id
      ensures id in v.Purge(types, qs).1 <==> Overdue(id, qs, types, v.created, v.now, v.ttl)
    {
      PurgedExactly(v, types, qs, id);
    }
  }

  class Channel {
    var queues: map<string, Partition>
    var created: map<string, real>
    const ttl: real
    ghost var home: Home
    ghost var drained: seq<string>  // ids handed out by drain, in order

    constructor (ttl: real)
      ensures Valid() && queues == map[] && drained == [] && home == map[]
    {
      this.ttl := ttl;
      queues, created, home, drained := map[], map[], map[], [];
    }

    ghost predicate Valid()
      reads this
    {
      Consistent(queues, created, home, drained)
    }

    /** Appends to its queue and indexes the time; the channel stays valid when the
        id was never sent before. */
    method Send(command: Command, now: real)
      modifies this
      ensures queues == Sent(old(queues), command)
      ensures AppendedTo(old(queues), queues, command)
      ensures created == old(created)[command.id := now] && drained == old(drained)
      ensures home == old(home)[command.id := (command.scope.sessionId, command.kind)]
      ensures old(Valid()) && command.id !in old(home) ==> Valid()
    {
      SentAppends(queues, command);
      if Valid() && command.id !in home {
        SendKeeps(queues, created, home, drained, command, now);
      }
      var sid, ct := command.scope.sessionId, command.kind;
      var p := if sid in queues then queues[sid] else Partition([], map[]);
      var order := if ct in p.queues then p.order else p.order + [ct];
      var q := if ct in p.queues then p.queues[ct] else [];
      queues := queues[sid := Partition(order, p.queues[ct := q + [command]])];
      created := created[command.id := now];
      home := home[command.id := (sid, ct)];
    }

    /** The scan order: the types asked for in any order, or all types in the order
        they were first used. */
    method TypesToScan(commandTypes: Option<set<CommandType>>, order: seq<CommandType>)
      returns (types: seq<CommandType>)
      requires Distinct(order)
      ensures Distinct(types)
      ensures if commandTypes.Some? then Elements(types) == commandTypes.value else types == order
    {
      if commandTypes.None? {
        return order;
      }
      types := [];
      var pending := commandTypes.value;
      while pending != {}
        invariant pending <= commandTypes.value && Distinct(types)
        invariant Elements(types) == commandTypes.value - pending
      {
        var ct :| ct in pending;
        assert ct !in Elements(types);
        ElementsSnoc(types, ct);
        types := types + [ct];
        pending := pending - {ct};
      }
    }

    /** The loop over one queue. */
    method DrainQueue(q: seq<Command>, target: Scope, room: Option<nat>, now: real)
      returns (hits: seq<Command>, rest: seq<Command>, ghost gone: seq<string>)
      requires DistinctIds(q)
      modifies this`created
      ensures Scanned(hits, gone, rest) == View(now, ttl, old(created), target).Scan(q, room)
      ensures created == old(created) - (Ids(hits) + Elements(gone))
    {
      ghost var v := View(now, ttl, created, target);
      hits := [];
      var expired: seq<string> := [];
      var kept: seq<Command> := [];
      var i := 0;
      assert q[0..] == q;
      while i < |q| && (room.None? || |hits| < room.value)
        invariant 0 <= i <= |q|
        invariant room.Some? ==> |hits| <= room.value
        invariant created == v.created - Ids(hits)
        invariant Ids(hits) <= Ids(q[..i])
        invariant Progress(v, q, room, i, hits, expired, kept)
      {
        var cmd := q[i];
        PrefixIds(q, i);
        var createdAt := if cmd.id in created then created[cmd.id] else 0.0;
        var effectiveTtl := if cmd.ttlSeconds.Some? then cmd.ttlSeconds.value else ttl;
        ProgressStep(v, q, room, i, hits, expired, kept);
        i := i + 1;
        if now - createdAt > effectiveTtl {
          expired := expired + [cmd.id];
        } else if !ScopeMatches(cmd.scope, target) {
          kept := kept + [cmd];
        } else {
          created := created - {cmd.id};
          hits := hits + [cmd];
        }
      }
      gone := expired;
      created := created - Elements(expired);
      rest := kept + q[i..];
    }

    /** One round: scan the queue of `ct` and put its remainder back. */
    method DrainType(target: Scope, ct: CommandType, room: Option<nat>, now: real)
      returns (hits: seq<Command>, ghost gone: seq<string>)
      requires Valid() && target.sessionId in queues && ct in queues[target.sessionId].queues
      modifies this
      ensures Valid() && home == old(home) && drained == old(drained) + IdSeq(hits)
      ensures var p := old(queues)[target.sessionId];
        var s := View(now, ttl, old(created), target).Scan(p.queues[ct], room);
        && hits == s.hits && gone == s.gone && (room.Some? ==> |hits| <= room.value)
        && queues == old(queues)[target.sessionId := p.(queues := p.queues[ct := s.rest])]
        && created == old(created) - (Ids(hits) + Elements(gone))
    {
      var sid := target.sessionId;
      ghost var v := View(now, ttl, created, target);
      ScanKeeps(v, queues, created, home, drained, sid, ct, room);
      var rest;
      hits, rest, gone := DrainQueue(queues[sid].queues[ct], target, room, now);
      var p := queues[sid];
      queues := queues[sid := p.(queues := p.queues[ct := rest])];
      drained := drained + IdSeq(hits);
    }

    /** One round of the loop over the types, for a type that has a queue. */
    method DrainPresent(target: Scope, scan: seq<CommandType>, i: nat, limit: int, now: real, sofar: seq<Command>,
                        ghost dropped: seq<string>, ghost v: View, ghost before: Partition,
                        ghost queues0: map<string, Partition>, ghost drained0: seq<string>)
      returns (matched: seq<Command>, ghost gone: seq<string>)
      requires Valid() && OnlySession(queues0, queues, target.sessionId)
      requires i < |scan| && (limit <= 0 || |sofar| < limit)
      requires v == View(now, ttl, v.created, target) && drained == drained0 + IdSeq(sofar)
      requires Round(v, scan, before.queues, Room(limit), i, sofar, dropped, queues[target.sessionId].queues, created)
      requires scan[i] in queues[target.sessionId].queues
      modifies this
      ensures Valid() && home == old(home) && OnlySession(queues0, queues, target.sessionId)
      ensures drained == drained0 + IdSeq(matched)
      ensures Round(v, scan, before.queues, Room(limit), i + 1, matched, gone, queues[target.sessionId].queues, created)
    {
      var sid := target.sessionId;
      var room := Less(Room(limit), |sofar|);
      IndexFrame(v, queues, created, home, drained, sid, scan[i], Ids(sofar) + Elements(dropped), room);
      RoundScans(v, scan, before.queues, Room(limit), i, sofar, dropped, queues[sid].queues, created);
      var hits, out := DrainType(target, scan[i], room, now);
      matched, gone := sofar + hits, dropped + out;
    }

    /** One round of the loop: a type without a queue is skipped. */
    method DrainRound(target: Scope, scan: seq<CommandType>, i: nat, limit: int, now: real, sofar: seq<Command>,
                      ghost dropped: seq<string>, ghost v: View, ghost before: Partition,
                      ghost queues0: map<string, Partition>, ghost drained0: seq<string>)
      returns (matched: seq<Command>, ghost gone: seq<string>)
      requires Valid() && OnlySession(queues0, queues, target.sessionId)
      requires i < |scan| && (limit <= 0 || |sofar| < limit)
      requires v == View(now, ttl, v.created, target) && drained == drained0 + IdSeq(sofar)
      requires Round(v, scan, before.queues, Room(limit), i, sofar, dropped, queues[target.sessionId].queues, created)
      modifies this
      ensures Valid() && home == old(home) && OnlySession(queues0, queues, target.sessionId)
      ensures drained == drained0 + IdSeq(matched)
      ensures Round(v, scan, before.queues, Room(limit), i + 1, matched, gone, queues[target.sessionId].queues, created)
    {
      var sid := target.sessionId;
      if scan[i] in queues[sid].queues {
        matched, gone := DrainPresent(target, scan, i, limit, now, sofar, dropped, v, before, queues0, drained0);
      } else {
        matched, gone := sofar, dropped;
      }
    }

    /** The loop of `Drain` over the types to scan. */
    method DrainTypes(target: Scope, scan: seq<CommandType>, limit: int, now: real)
      returns (matched: seq<Command>, ghost gone: seq<string>)
      requires Valid() && target.sessionId in queues
      modifies this
      ensures Valid() && home == old(home) && drained == old(drained) + IdSeq(matched)
      ensures var p := old(queues)[target.sessionId];
        var r := View(now, ttl, old(created), target).DrainAll(scan, p.queues, Room(limit));
        && matched == r.hits && gone == r.gone
        && queues == old(queues)[target.sessionId := p.(queues := r.queues)]
        && created == old(created) - (Ids(matched) + Elements(gone))
    {
      var sid := target.sessionId;
      ghost var v := View(now, ttl, created, target);
      ghost var before := queues[sid];
      matched, gone := [], [];
      assert scan[0..] == scan;
      assert created - {} == created;
      ghost var queues0, drained0 := queues, drained;
      assert drained0 + IdSeq(matched) == drained;
      var i := 0;
      while i < |scan| && (limit <= 0 || |matched| < limit)
        invariant Valid() && home == old(home) && OnlySession(queues0, queues, sid)
        invariant drained == drained0 + IdSeq(matched)
        invariant Round(v, scan, before.queues, Room(limit), i, matched, gone, queues[sid].queues, created)
      {
        matched, gone := DrainRound(target, scan, i, limit, now, matched, gone, v, before, queues0, drained0);
        i := i + 1;
      }
    }

    /** Consumes the matching commands of one session. */
    method Drain(target: Scope, limit: int, commandTypes: Option<set<CommandType>>, now: real)
      returns (matched: seq<Command>, ghost types: seq<CommandType>)
      requires Valid()
      modifies this
      ensures Valid() && home == old(home) && drained == old(drained) + IdSeq(matched)
      ensures Distinct(types) && (commandTypes.Some? ==> Elements(types) == commandTypes.value)
      ensures target.sessionId !in old(queues) ==> matched == [] && queues == old(queues) && created == old(created)
      ensures target.sessionId in old(queues) ==>
        var p := old(queues)[target.sessionId];
        var r := View(now, ttl, old(created), target).DrainAll(types, p.queues, Room(limit));
        && (commandTypes.None? ==> types == p.order)
        && matched == r.hits
        && queues == old(queues)[target.sessionId := p.(queues := r.queues)]
        && created == old(created) - (Ids(matched) + Elements(r.gone))
      ensures target.sessionId in old(queues) ==>
        var qs := old(queues)[target.sessionId].queues;
        && (commandTypes.None? ==> Elements(types) == qs.Keys)
        && DrainPromise(matched, qs, types, target, limit, old(created), created, now, ttl)
    {
      if target.sessionId !in queues {
        matched, types := [], AnyOrder(commandTypes);
        return;
      }
      OrderOf(queues, created, home, drained, target.sessionId);
      var scan := TypesToScan(commandTypes, queues[target.sessionId].order);
      types := scan;
      ghost var v, qs := View(now, ttl, created, target), queues[target.sessionId].queues;
      ValidQueues(queues, created, home, drained, target.sessionId);
      ghost var gone;
      matched, gone := DrainTypes(target, scan, limit, now);
      DrainPromised(v, types, qs, limit, created);
    }

    method PeekQueue(q: seq<Command>, target: Scope, now: real, sofar: seq<Command>)
      returns (result: seq<Command>, expired: seq<string>)
      ensures var v := View(now, ttl, created, target);
        result == sofar + v.Hits(q) && expired == v.ExpiredIds(q)
    {
      ghost var v := View(now, ttl, created, target);
      result, expired := sofar, [];
      assert q[0..] == q;
      for i := 0 to |q|
        invariant result + v.Hits(q[i..]) == sofar + v.Hits(q)
        invariant expired + v.ExpiredIds(q[i..]) == v.ExpiredIds(q)
      {
        var cmd := q[i];
        assert q[i..][1..] == q[i + 1..];
        var createdAt := if cmd.id in created then created[cmd.id] else 0.0;
        var effectiveTtl := if cmd.ttlSeconds.Some? then cmd.ttlSeconds.value else ttl;
        if now - createdAt > effectiveTtl {
          expired := expired + [cmd.id];
        } else if ScopeMatches(cmd.scope, target) {
          result := result + [cmd];
        }
      }
    }

    /** One round: collect from the queue of `ct`, then drop its expired commands. */
    method PeekType(target: Scope, ct: CommandType, now: real, sofar: seq<Command>)
      returns (result: seq<Command>, ghost gone: seq<string>)
      requires Valid() && target.sessionId in queues && ct in queues[target.sessionId].queues
      modifies this
      ensures Valid() && home == old(home) && drained == old(drained)
      ensures var p := old(queues)[target.sessionId];
        var v := View(now, ttl, old(created), target);
        && result == sofar + v.Hits(p.queues[ct]) && gone == v.ExpiredIds(p.queues[ct])
        && queues == old(queues)[target.sessionId :=
             p.(queues := p.queues[ct := Without(p.queues[ct], Elements(gone))])]
        && created == old(created) - Elements(gone)
    {
      var sid := target.sessionId;
      var q := queues[sid].queues[ct];
      ghost var v := View(now, ttl, created, target);
      PurgeKeeps(v, queues, created, home, drained, sid, ct);
      var expired;
      result, expired := PeekQueue(q, target, now, sofar);
      gone := expired;
      created := created - Elements(expired);
      var p := queues[sid];
      queues := queues[sid := p.(queues := p.queues[ct := Without(q, Elements(expired))])];
    }

    method PeekTypes(target: Scope, scan: seq<CommandType>, now: real) returns (result: seq<Command>)
      requires Valid() && target.sessionId in queues && Distinct(scan)
      modifies this
      ensures Valid() && home == old(home) && drained == old(drained)
      ensures var p := old(queues)[target.sessionId];
        var v := View(now, ttl, old(created), target);
        && result == v.HitsOf(scan, p.queues)
        && queues == old(queues)[target.sessionId := p.(queues := v.Purge(scan, p.queues).0)]
        && created == old(created) - Elements(v.Purge(scan, p.queues).1)
    {
      var sid := target.sessionId;
      ghost var v := View(now, ttl, created, target);
      ghost var before, queues0 := queues[sid], queues;
      ghost var gone: seq<string> := [];
      result := [];
      assert scan[0..] == scan && created - {} == created;
      PeekStarts(v, scan, before.queues);
      for i := 0 to |scan|
        invariant Valid() && home == old(home) && drained == old(drained) && OnlySession(queues0, queues, sid)
        invariant PeekRound(v, scan, before.queues, i, result, gone, queues[sid].queues, created)
      {
        PeekSkips(v, scan, before.queues, i, result, gone, queues[sid].queues, created);
        if scan[i] in queues[sid].queues {
          ViewFrame(v, queues, created, home, drained, sid, scan[i], Elements(gone));
          PeekScans(v, scan, before.queues, i, result, gone, queues[sid].queues, created);
          ghost var dropped;
          result, dropped := PeekType(target, scan[i], now, result);
          gone := gone + dropped;
        }
      }
      assert result + [] == result && gone + [] == gone;
    }

    /** Shows the matching commands of one session without consuming them; expired
        ones are purged. */
    method Peek(target: Scope, commandTypes: Option<set<CommandType>>, now: real)
      returns (result: seq<Command>, ghost types: seq<CommandType>)
      requires Valid()
      modifies this
      ensures Valid() && home == old(home) && drained == old(drained)
      ensures Distinct(types) && (commandTypes.Some? ==> Elements(types) == commandTypes.value)
      ensures target.sessionId !in old(queues) ==> result == [] && queues == old(queues) && created == old(created)
      ensures target.sessionId in old(queues) ==>
        var p := old(queues)[target.sessionId];
        var v := View(now, ttl, old(created), target);
        && (commandTypes.None? ==> types == p.order)
        && result == v.HitsOf(types, p.queues)
        && queues == old(queues)[target.sessionId := p.(queues := v.Purge(types, p.queues).0)]
        && created == old(created) - Elements(v.Purge(types, p.queues).1)
      ensures target.sessionId in old(queues) ==>
        var qs := old(queues)[target.sessionId].queues;
        && (commandTypes.None? ==> Elements(types) == qs.Keys)
        && PeekPromise(result, qs, types, target, old(created), created, now, ttl)
    {
      if target.sessionId !in queues {
        result, types := [], AnyOrder(commandTypes);
        return;
      }
      OrderOf(queues, created, home, drained, target.sessionId);
      var scan := TypesToScan(commandTypes, queues[target.sessionId].order);
      types := scan;
      ghost var v, qs := View(now, ttl, created, target), queues[target.sessionId].queues;
      ValidQueues(queues, created, home, drained, target.sessionId);
      result := PeekTypes(target, scan, now);
      PeekPromised(v, types, qs, created);
    }

    /** Forgets every command of a session, queued and indexed. */
    method CleanupSession(sessionId: string)
      requires Valid()
      modifies this
      ensures Valid() && home == old(home) && drained == old(drained)
      ensures queues == old(queues) - {sessionId}
      ensures created.Keys == set id | id in old(created) && id in home && home[id].0 != sessionId
      ensures forall id :: id in created ==> created[id] == old(created)[id]
    {
      CleanupKeeps(queues, created, home, drained, sessionId);
      ghost var created0 := created;
      if sessionId in queues {
        var pending := queues[sessionId].queues.Keys;
        var p := queues[sessionId];
        while pending != {}
          invariant pending <= p.queues.Keys
          invariant queues == old(queues) && home == old(home) && drained == old(drained)
          invariant created == created0 - IdsOver(p, p.queues.Keys - pending)
        {
          var ct :| ct in pending;
          assert IdsOver(p, p.queues.Keys - (pending - {ct}))
              == IdsOver(p, p.queues.Keys - pending) + Ids(p.queues[ct]);
          pending := pending - {ct};
          created := created - Ids(p.queues[ct]);
        }
        assert p.queues.Keys - {} == p.queues.Keys;
      }
      queues := queues - {sessionId};
    }
  }
}
