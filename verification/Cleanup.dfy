/** Splitting a session into a kept tail and a pruned head (cleanup.py:724-833):
    the token boundary, the tool-chain adjustment and the compression trigger. */
module Cleanup {
  import opened Outcomes
  import opened Messages

  function SumTokens(messages: seq<Message>, estimate: Estimator): nat {
    if messages == [] then 0 else ResolveTokens(messages[0], estimate) + SumTokens(messages[1..], estimate)
  }

  /** Session pressure: tokens of the messages that are not system messages. */
  function Pressure(messages: seq<Message>, estimate: Estimator): nat {
    if messages == [] then 0
    else
      var rest := Pressure(messages[1..], estimate);
      if messages[0].role == System then rest else ResolveTokens(messages[0], estimate) + rest
  }

  function Threshold(maxContextTokens: int, maxTokenRatio: real, maxOutputTokens: int): real {
    var effective := if maxContextTokens - maxOutputTokens < 1 then 1 else maxContextTokens - maxOutputTokens;
    effective as real * maxTokenRatio
  }

  predicate Triggers(messages: seq<Message>, estimate: Estimator, maxContextTokens: Option<int>,
                     maxTokenRatio: real, maxOutputTokens: int)
  {
    && maxContextTokens.Some?
    && Pressure(messages, estimate) as real > Threshold(maxContextTokens.value, maxTokenRatio, maxOutputTokens)
  }

  /** Where the history holds something other than a system message. */
  function SessionPlaces(messages: seq<Message>): set<int> {
    set i | 0 <= i < |messages| && messages[i].role != System
  }

  lemma {:induction false} PressureSnoc(messages: seq<Message>, m: Message, estimate: Estimator)
    ensures Pressure(messages + [m], estimate)
         == Pressure(messages, estimate) + if m.role == System then 0 else Weights([m], estimate)[0]
  {
    if messages == [] {
      assert [] + [m] == [m] && [m][1..] == [];
      assert Pressure([m][1..], estimate) == 0;
    } else {
      assert (messages + [m])[1..] == messages[1..] + [m];
      PressureSnoc(messages[1..], m, estimate);
    }
  }

  lemma {:induction false} PressureIsSum(messages: seq<Message>, estimate: Estimator)
    ensures Pressure(messages, estimate) == SumAt(Weights(messages, estimate), SessionPlaces(messages))
  {
    if messages != [] {
      var n := |messages| - 1;
      PressureIsSum(messages[..n], estimate);
      assert messages == messages[..n] + [messages[n]];
      PressureSnoc(messages[..n], messages[n], estimate);
      assert Weights(messages, estimate)[..n] == Weights(messages[..n], estimate);
      SumAgrees(Weights(messages[..n], estimate), SessionPlaces(messages[..n]), SessionPlaces(messages));
    }
  }

  /** The trigger fires when the context size is known and what is not a system message
      weighs more than the ratio of the context left by the output reserve, of which at
      least one token counts. */
  lemma TriggersExactly(messages: seq<Message>, estimate: Estimator, maxContextTokens: Option<int>,
                        maxTokenRatio: real, maxOutputTokens: int)
    ensures Triggers(messages, estimate, maxContextTokens, maxTokenRatio, maxOutputTokens) <==>
      && maxContextTokens.Some?
      && var left := maxContextTokens.value - maxOutputTokens;
         SumAt(Weights(messages, estimate), SessionPlaces(messages)) as real
           > (if left < 1 then 1 else left) as real * maxTokenRatio
  {
    PressureIsSum(messages, estimate);
  }

  lemma {:induction false} PressureBelowSum(messages: seq<Message>, estimate: Estimator)
    ensures Pressure(messages, estimate) <= SumTokens(messages, estimate)
  {
    if messages != [] {
      PressureBelowSum(messages[1..], estimate);
    }
  }

  lemma {:induction false} SuffixSumShrinks(messages: seq<Message>, estimate: Estimator, i: nat, j: nat)
    requires i <= j <= |messages|
    ensures SumTokens(messages[j..], estimate) <= SumTokens(messages[i..], estimate)
    decreases j - i
  {
    if i < j {
      assert messages[i..][1..] == messages[i + 1..];
      SuffixSumShrinks(messages, estimate, i + 1, j);
    }
  }

  // ---- The token boundary ----

  /** The earliest start whose suffix fits the target, or the last message alone. */
  ghost predicate TokenBoundary(messages: seq<Message>, target: int, estimate: Estimator, boundary: nat) {
    && boundary < |messages|
    && (boundary == |messages| - 1 || SumTokens(messages[boundary..], estimate) <= target)
    && (forall i :: 0 <= i < boundary ==> SumTokens(messages[i..], estimate) > target)
  }

  /** The three clauses leave one boundary only. */
  lemma TokenBoundaryUnique(messages: seq<Message>, target: int, estimate: Estimator, b: nat, b': nat)
    requires TokenBoundary(messages, target, estimate, b) && TokenBoundary(messages, target, estimate, b')
    ensures b == b'
  {
  }

  lemma {:induction false} SumTokensSnoc(messages: seq<Message>, m: Message, estimate: Estimator)
    ensures SumTokens(messages + [m], estimate) == SumTokens(messages, estimate) + Weights([m], estimate)[0]
  {
    if messages == [] {
      assert [] + [m] == [m] && [m][1..] == [];
      assert SumTokens([m][1..], estimate) == 0;
    } else {
      assert (messages + [m])[1..] == messages[1..] + [m];
      SumTokensSnoc(messages[1..], m, estimate);
    }
  }

  lemma {:induction false} TokensAreWeights(messages: seq<Message>, estimate: Estimator)
    ensures SumTokens(messages, estimate) == Sum(Weights(messages, estimate))
  {
    if messages != [] {
      var n := |messages| - 1;
      TokensAreWeights(messages[..n], estimate);
      SumTokensSnoc(messages[..n], messages[n], estimate);
      assert messages == messages[..n] + [messages[n]];
      assert Weights(messages, estimate)[..n] == Weights(messages[..n], estimate);
    }
  }

  /** In weights: from the boundary on the history fits the target, or only the newest
      message is left, and from any earlier place on it does not fit. */
  lemma TokenBoundaryMeans(messages: seq<Message>, target: int, estimate: Estimator, boundary: nat)
    ensures TokenBoundary(messages, target, estimate, boundary) <==>
      var weights := Weights(messages, estimate);
      && boundary < |messages|
      && (boundary == |messages| - 1 || Sum(weights[boundary..]) <= target)
      && forall i :: 0 <= i < boundary ==> Sum(weights[i..]) > target
  {
    forall i | 0 <= i < |messages|
      ensures SumTokens(messages[i..], estimate) == Sum(Weights(messages, estimate)[i..])
    {
      TokensAreWeights(messages[i..], estimate);
      assert Weights(messages[i..], estimate) == Weights(messages, estimate)[i..];
    }
  }

  method FindTokenBoundary(messages: seq<Message>, target: int, estimate: Estimator) returns (boundary: nat)
    requires messages != []
    ensures TokenBoundary(messages, target, estimate, boundary)
  {
    var total := |messages|;
    var accumulated := 0;
    boundary := total - 1;
    var i := total;
    while i > 0
      invariant 0 <= i <= total
      invariant boundary == if i == total then total - 1 else i
      invariant accumulated == SumTokens(messages[i..], estimate)
      invariant i < total - 1 ==> accumulated <= target
    {
      i := i - 1;
      var msgTokens := ResolveTokens(messages[i], estimate);
      assert messages[i..][1..] == messages[i + 1..];
      if i < total - 1 && accumulated + msgTokens > target {
        boundary := i + 1;
        forall k | 0 <= k < boundary
          ensures SumTokens(messages[k..], estimate) > target
        {
          SuffixSumShrinks(messages, estimate, k, i);
        }
        return;
      }
      accumulated := accumulated + msgTokens;
      boundary := i;
    }
  }

  // ---- Tool chains ----

  /** Some message among the first `before` is an assistant calling result `t`. */
  predicate OwnerBefore(messages: seq<Message>, t: nat, before: nat)
    requires t < |messages| && before <= |messages|
  {
    exists j :: 0 <= j < before && Owns(messages, j, t)
  }

  predicate Owns(messages: seq<Message>, j: nat, t: nat)
    requires j < |messages| && t < |messages|
  {
    messages[j].role == Assistant && messages[t].toolCallId in messages[j].toolCalls
  }

  /** A boundary on a tool result whose owner is pruned moves past it. */
  predicate Evicts(messages: seq<Message>, boundary: nat) {
    && 0 < boundary < |messages|
    && messages[boundary].role == Tool
    && OwnerBefore(messages, boundary, boundary)
  }

  function Adjusted(messages: seq<Message>, boundary: nat): (r: nat)
    ensures boundary <= r && (boundary <= |messages| ==> r <= |messages|)
    ensures !Evicts(messages, r)
    ensures forall k :: boundary <= k < r ==> Evicts(messages, k)
    decreases |messages| - boundary
  {
    if Evicts(messages, boundary) then Adjusted(messages, boundary + 1) else boundary
  }

  method AdjustBoundaryForToolChains(messages: seq<Message>, start: nat) returns (boundary: nat)
    requires start <= |messages|
    ensures boundary == Adjusted(messages, start)
  {
    boundary := start;
    while 0 < boundary < |messages|
      invariant start <= boundary <= |messages|
      invariant Adjusted(messages, boundary) == Adjusted(messages, start)
      decreases |messages| - boundary
    {
      if messages[boundary].role != Tool {
        break;
      }
      var ownerPruned := false;
      for j := 0 to boundary
        invariant ownerPruned <==> exists k :: 0 <= k < j && Owns(messages, k, boundary)
      {
        if Owns(messages, j, boundary) {
          ownerPruned := true;
        }
      }
      if !ownerPruned {
        break;
      }
      assert Evicts(messages, boundary);
      boundary := boundary + 1;
    }
  }

  /** The kept result `t` is split off: its last owner before it was pruned. */
  ghost predicate SplitOff(messages: seq<Message>, boundary: nat, t: nat) {
    && boundary <= t < |messages|
    && messages[t].role == Tool
    && OwnerBefore(messages, t, boundary)
    && forall j :: boundary <= j < t ==> !Owns(messages, j, t)
  }

  ghost predicate NoSplit(messages: seq<Message>, boundary: nat) {
    forall t :: !SplitOff(messages, boundary, t)
  }

  /** Between a result and its last owner there are only results that have an
      owner of their own before them. */
  ghost predicate ChainSafe(messages: seq<Message>) {
    forall o, t, m :: 0 <= o < m < t < |messages| && LastOwner(messages, o, t)
      ==> messages[m].role == Tool && OwnerBefore(messages, m, m)
  }

  ghost predicate LastOwner(messages: seq<Message>, o: nat, t: nat) {
    && o < t < |messages|
    && messages[t].role == Tool && Owns(messages, o, t)
    && forall j :: o < j < t ==> !Owns(messages, j, t)
  }

  lemma {:induction false} LastOwnerExists(messages: seq<Message>, t: nat, k: nat, bound: nat) returns (o: nat)
    requires k < bound <= t < |messages| && messages[t].role == Tool && Owns(messages, k, t)
    requires forall j :: bound <= j < t ==> !Owns(messages, j, t)
    ensures o < bound && LastOwner(messages, o, t)
    decreases bound
  {
    if Owns(messages, bound - 1, t) {
      o := bound - 1;
    } else {
      o := LastOwnerExists(messages, t, k, bound - 1);
    }
  }

  /** Chain adjustment never leaves a kept result without its last owner, from any
      starting boundary, exactly on the chain-safe histories. */
  lemma AdjustmentExact(messages: seq<Message>)
    ensures (forall b :: 0 < b < |messages| ==> NoSplit(messages, Adjusted(messages, b))) <==> ChainSafe(messages)
  {
    if ChainSafe(messages) {
      forall b, t | 0 < b < |messages|
        ensures !SplitOff(messages, Adjusted(messages, b), t)
      {
        SafeNotSplit(messages, b, t);
      }
    } else {
      var o, t, m :| 0 <= o < m < t < |messages| && LastOwner(messages, o, t)
                     && !(messages[m].role == Tool && OwnerBefore(messages, m, m));
      assert Adjusted(messages, m) == m;
      assert SplitOff(messages, m, t);
    }
  }

  lemma SafeNotSplit(messages: seq<Message>, b: nat, t: nat)
    requires ChainSafe(messages) && 0 < b < |messages|
    ensures !SplitOff(messages, Adjusted(messages, b), t)
  {
    var b' := Adjusted(messages, b);
    if SplitOff(messages, b', t) {
      var k :| 0 <= k < b' && Owns(messages, k, t);
      var o := LastOwnerExists(messages, t, k, b');
    }
  }

  /** Every message weighs something: the estimator adds an overhead to each. */
  ghost predicate Weighs(estimate: Estimator) {
    forall m: Message :: estimate(m) > 0
  }

  /** Then every start is the token boundary of some target. */
  lemma EveryBoundaryReached(messages: seq<Message>, estimate: Estimator, b: nat)
    requires Weighs(estimate) && b < |messages|
    ensures SumTokens(messages[b..], estimate) >= 1
    ensures TokenBoundary(messages, SumTokens(messages[b..], estimate), estimate, b)
  {
    forall i | 0 <= i < b
      ensures SumTokens(messages[i..], estimate) > SumTokens(messages[b..], estimate)
    {
      assert messages[i..][1..] == messages[i + 1..];
      SuffixSumShrinks(messages, estimate, i + 1, b);
    }
  }

  /** Whatever the keep target, the split never separates a kept result from its last
      owner, if and only if the history is chain-safe. */
  lemma SplitExact(messages: seq<Message>, estimate: Estimator)
    requires Weighs(estimate)
    ensures ChainSafe(messages) <==> forall target, b ::
      1 <= target && TokenBoundary(messages, target, estimate, b) ==> NoSplit(messages, Adjusted(messages, b))
  {
    if ChainSafe(messages) {
      forall target, b | 1 <= target && TokenBoundary(messages, target, estimate, b)
        ensures NoSplit(messages, Adjusted(messages, b))
      {
        SplitKeepsChains(messages, target, estimate, b);
      }
    } else {
      AdjustmentExact(messages);
      var b :| 0 < b < |messages| && !NoSplit(messages, Adjusted(messages, b));
      EveryBoundaryReached(messages, estimate, b);
    }
  }

  /** Each tool result follows its owner in one contiguous run of results. */
  ghost predicate ContiguousRuns(messages: seq<Message>) {
    forall t :: 0 <= t < |messages| && messages[t].role == Tool ==> HasRun(messages, t)
  }

  ghost predicate HasRun(messages: seq<Message>, t: nat)
    requires t < |messages|
  {
    exists o :: 0 <= o < t && Owns(messages, o, t) && forall m :: o < m < t ==> messages[m].role == Tool
  }

  lemma ContiguousIsSafe(messages: seq<Message>)
    requires ContiguousRuns(messages)
    ensures ChainSafe(messages)
  {
    forall o, t, m | 0 <= o < m < t < |messages| && LastOwner(messages, o, t)
      ensures messages[m].role == Tool && OwnerBefore(messages, m, m)
    {
      var o' :| 0 <= o' < t && Owns(messages, o', t) && forall k :: o' < k < t ==> messages[k].role == Tool;
      assert o' <= o;
      assert HasRun(messages, m);
    }
  }

  /** The source's promise without a hypothesis on the input fails: with a user
      message between a call and its result, the target that keeps just the two puts
      the boundary between them. */
  lemma InterleavedChainIsSplit(call: Message, user: Message, result: Message, estimate: Estimator)
    requires Weighs(estimate)
    requires call.role == Assistant && user.role == User && result.role == Tool
    requires result.toolCallId in call.toolCalls
    ensures var target := ResolveTokens(user, estimate) + ResolveTokens(result, estimate);
      && TokenBoundary([call, user, result], target, estimate, 1)
      && SplitOff([call, user, result], Adjusted([call, user, result], 1), 2)
  {
    var messages := [call, user, result];
    EveryBoundaryReached(messages, estimate, 1);
    assert messages[1..] == [user, result] && [user, result][1..] == [result] && [result][1..] == [];
    assert SumTokens([result], estimate) == ResolveTokens(result, estimate);
    assert SumTokens(messages[1..], estimate) == ResolveTokens(user, estimate) + ResolveTokens(result, estimate);
    assert Owns(messages, 0, 2);
    assert Adjusted(messages, 1) == 1;
  }

  // ---- The split ----

  method ComputeBoundary(messages: seq<Message>, target: int, estimate: Estimator)
    returns (keep: seq<Message>, pruned: seq<Message>)
    ensures pruned + keep == messages
    ensures messages != [] ==> exists b: nat ::
      && TokenBoundary(messages, target, estimate, b) && |pruned| == Adjusted(messages, b)
      && (keep == [] <==> forall k :: b <= k < |messages| ==> Evicts(messages, k))
  {
    if |messages| == 0 {
      return [], [];
    }
    var boundary := FindTokenBoundary(messages, target, estimate);
    ghost var tokens := boundary;
    boundary := AdjustBoundaryForToolChains(messages, boundary);
    keep, pruned := messages[boundary..], messages[..boundary];
    assert TokenBoundary(messages, target, estimate, tokens) && |pruned| == Adjusted(messages, tokens);
  }

  /** Tool results kept have an owner kept: on chain-safe input the split never
      separates a result from its last owner. */
  lemma SplitKeepsChains(messages: seq<Message>, target: int, estimate: Estimator, b: nat)
    requires TokenBoundary(messages, target, estimate, b)
    requires ChainSafe(messages)
    ensures NoSplit(messages, Adjusted(messages, b))
  {
    forall t
      ensures !SplitOff(messages, Adjusted(messages, b), t)
    {
      if b > 0 {
        SafeNotSplit(messages, b, t);
      }
    }
  }

  /** "The most recent message is always retained" fails: the adjustment can evict the
      floor of one message too.  Whatever the keep target, something is kept if and only
      if the newest message is not a tool result whose call is in the history. */
  lemma NewestKeptExact(messages: seq<Message>, estimate: Estimator)
    requires Weighs(estimate) && messages != []
    ensures (forall target, b ::
               1 <= target && TokenBoundary(messages, target, estimate, b) ==> Adjusted(messages, b) < |messages|)
       <==> !Evicts(messages, |messages| - 1)
  {
    var last := |messages| - 1;
    if Evicts(messages, last) {
      EveryBoundaryReached(messages, estimate, last);
      assert Adjusted(messages, last) == |messages|;
    }
  }

  /** A call and its result that do not fit the target together: both are pruned. */
  lemma CallAndResultPruned(call: Message, result: Message, target: int, estimate: Estimator, b: nat)
    requires call.role == Assistant && result.role == Tool && result.toolCallId in call.toolCalls
    requires ResolveTokens(call, estimate) + ResolveTokens(result, estimate) > target
    requires TokenBoundary([call, result], target, estimate, b)
    ensures Adjusted([call, result], b) == 2
  {
    var messages := [call, result];
    assert messages[1..] == [result] && [result][1..] == [] && messages[0..] == messages;
    assert SumTokens([result], estimate) == ResolveTokens(result, estimate);
    assert TokenBoundary(messages, target, estimate, 1);
    TokenBoundaryUnique(messages, target, estimate, b, 1);
    assert Owns(messages, 0, 1);
    assert Evicts(messages, 1);
  }

  /** On sanitized input every kept tool result has an owner kept before it. */
  lemma KeptResultsAreOwned(messages: seq<Message>, target: int, estimate: Estimator, b: nat, t: nat)
    requires TokenBoundary(messages, target, estimate, b) && ContiguousRuns(messages)
    requires Adjusted(messages, b) <= t < |messages| && messages[t].role == Tool
    ensures exists j :: Adjusted(messages, b) <= j < t && Owns(messages, j, t)
  {
    ContiguousIsSafe(messages);
    SplitKeepsChains(messages, target, estimate, b);
    assert HasRun(messages, t);
    assert !SplitOff(messages, Adjusted(messages, b), t);
  }

  /** The kept tail fires the trigger again exactly when it is the newest message
      alone and that message, not a system one, is over the threshold by itself;
      provided the keep target (at least 1, cleanup.py:179) is within the
      threshold. */
  lemma RetriggerExact(messages: seq<Message>, target: int, estimate: Estimator, b: nat,
                       maxContextTokens: int, maxTokenRatio: real, maxOutputTokens: int)
    requires TokenBoundary(messages, target, estimate, b)
    requires 1 <= target && target as real <= Threshold(maxContextTokens, maxTokenRatio, maxOutputTokens)
    ensures var last := |messages| - 1;
      Triggers(messages[Adjusted(messages, b)..], estimate, Some(maxContextTokens), maxTokenRatio, maxOutputTokens)
      <==> Adjusted(messages, b) == last && messages[last].role != System
           && ResolveTokens(messages[last], estimate) as real
              > Threshold(maxContextTokens, maxTokenRatio, maxOutputTokens)
  {
    var last := |messages| - 1;
    var b' := Adjusted(messages, b);
    assert messages[last..] == [messages[last]];
    if b' < last {
      SuffixSumShrinks(messages, estimate, b, b');
      PressureBelowSum(messages[b'..], estimate);
    } else if b' == last {
      assert Pressure([messages[last]][1..], estimate) == 0;
      var newest := messages[last];
      assert Pressure(messages[last..], estimate)
          == if newest.role == System then 0 else ResolveTokens(newest, estimate);
    } else {
      assert messages[b'..] == [];
    }
  }

  /** No immediate re-trigger: when the newest message fits the keep target, the
      kept tail is below the threshold. */
  lemma NoImmediateRetrigger(messages: seq<Message>, target: int, estimate: Estimator, b: nat,
                             maxContextTokens: Option<int>, maxTokenRatio: real, maxOutputTokens: int)
    requires TokenBoundary(messages, target, estimate, b)
    requires 1 <= target && ResolveTokens(messages[|messages| - 1], estimate) <= target
    requires maxContextTokens.Some? ==>
      target as real <= Threshold(maxContextTokens.value, maxTokenRatio, maxOutputTokens)
    ensures !Triggers(messages[Adjusted(messages, b)..], estimate, maxContextTokens, maxTokenRatio, maxOutputTokens)
  {
    if maxContextTokens.Some? {
      RetriggerExact(messages, target, estimate, b, maxContextTokens.value, maxTokenRatio, maxOutputTokens);
    }
  }
}
