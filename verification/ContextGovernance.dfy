/** `ContextBudgetGovernance` (context_governance.py:125-279): token-window pruning
    of old tool results.  `Cleared` says message by message, with no reference to
    the window walk, which results are replaced. */
module ContextGovernance {
  import opened Outcomes
  import opened Messages

  const CLEARED_PLACEHOLDER := "[Old tool result content cleared]"
  const TOOL_RESULT_PRUNED := "tool_result_pruned"

  lemma PlaceholderLength()
    ensures |CLEARED_PLACEHOLDER| == 33
  {
  }

  datatype Budget = Budget(
    threshold: int,
    protectTokens: int,
    minGain: int,
    keepRecent: nat,
    whitelist: set<string>,
    estimate: Estimator)
  {
    function Tokens(m: Message): nat {
      ResolveTokens(m, estimate)
    }

    predicate Compactable(m: Message) {
      m.role == Tool && !(m.name.Some? && m.name.value in whitelist)
    }

    function Total(messages: seq<Message>): nat {
      if messages == [] then 0 else Tokens(messages[0]) + Total(messages[1..])
    }

    /** How many compactable results `messages` holds, and their tokens. */
    function ToolCount(messages: seq<Message>): nat {
      if messages == [] then 0 else (if Compactable(messages[0]) then 1 else 0) + ToolCount(messages[1..])
    }

    function ToolTokens(messages: seq<Message>): nat {
      if messages == [] then 0
      else (if Compactable(messages[0]) then Tokens(messages[0]) else 0) + ToolTokens(messages[1..])
    }

    /** Outside the protected window: at least `keepRecent` compactable results
        follow, and the results from this one on overflow the protected tokens. */
    predicate Outside(messages: seq<Message>, i: nat)
      requires i < |messages|
    {
      && Compactable(messages[i])
      && ToolCount(messages[i + 1..]) >= keepRecent
      && ToolTokens(messages[i..]) > protectTokens
    }

    /** Tokens of the first `n` messages that lie outside the window. */
    function OutsideTokens(messages: seq<Message>, n: nat): nat
      requires n <= |messages|
    {
      if n == 0 then 0
      else OutsideTokens(messages, n - 1) + if Outside(messages, n - 1) then Tokens(messages[n - 1]) else 0
    }

    /** The pass runs: the history is over budget and the gain is large enough. */
    predicate Prunes(messages: seq<Message>) {
      Total(messages) > threshold && OutsideTokens(messages, |messages|) >= minGain
    }

    predicate Clearable(m: Message) {
      !m.lossy && m.content.Text? && m.content.text != ""
    }

    predicate Cleared(messages: seq<Message>, i: nat)
      requires i < |messages|
    {
      Prunes(messages) && Outside(messages, i) && Clearable(messages[i])
    }

    function Governed(messages: seq<Message>): (r: seq<Message>)
      ensures |r| == |messages|
    {
      seq(|messages|, i requires 0 <= i < |messages| =>
            if Cleared(messages, i) then Clear(messages[i]) else messages[i])
    }
  }

  function Clear(m: Message): (r: Message)
    requires m.content.Text?
    ensures r.content == Text(CLEARED_PLACEHOLDER) && r.lossy
    ensures r.role == m.role && r.name == m.name && r.tokenCount == m.tokenCount
  {
    m.(content := Text(CLEARED_PLACEHOLDER), lossy := true,
       originalChars := Some(|m.content.text|), reduction := Some(TOOL_RESULT_PRUNED))
  }

  // ---- The suffix sums ----

  lemma {:induction false} TotalAppend(b: Budget, h: seq<Message>, more: seq<Message>)
    ensures b.Total(h + more) == b.Total(h) + b.Total(more)
    ensures b.ToolCount(h + more) == b.ToolCount(h) + b.ToolCount(more)
    ensures b.ToolTokens(h + more) == b.ToolTokens(h) + b.ToolTokens(more)
  {
    if h == [] {
      assert h + more == more;
    } else {
      assert (h + more)[1..] == h[1..] + more;
      TotalAppend(b, h[1..], more);
    }
  }

  lemma {:induction false} SuffixShrinks(b: Budget, messages: seq<Message>, i: nat, j: nat)
    requires i <= j <= |messages|
    ensures b.ToolTokens(messages[j..]) <= b.ToolTokens(messages[i..])
    ensures b.ToolCount(messages[j..]) <= b.ToolCount(messages[i..])
    decreases j - i
  {
    if i < j {
      assert messages[i..][1..] == messages[i + 1..];
      SuffixShrinks(b, messages, i + 1, j);
    }
  }

  /** Being outside is inherited by every older compactable result. */
  lemma OlderIsOutside(b: Budget, messages: seq<Message>, i: nat, j: nat)
    requires i <= j < |messages| && b.Outside(messages, j) && b.Compactable(messages[i])
    ensures b.Outside(messages, i)
  {
    SuffixShrinks(b, messages, i + 1, j + 1);
    SuffixShrinks(b, messages, i, j);
  }

  lemma ExtensionKeepsOutside(b: Budget, h: seq<Message>, more: seq<Message>, i: nat)
    requires i < |h| && b.Outside(h, i)
    ensures b.Outside(h + more, i)
  {
    assert (h + more)[i + 1..] == h[i + 1..] + more;
    assert (h + more)[i..] == h[i..] + more;
    TotalAppend(b, h[i + 1..], more);
    TotalAppend(b, h[i..], more);
  }

  lemma {:induction false} ExtensionGains(b: Budget, h: seq<Message>, more: seq<Message>, n: nat)
    requires n <= |h|
    ensures b.OutsideTokens(h, n) <= b.OutsideTokens(h + more, n)
  {
    if n > 0 {
      ExtensionGains(b, h, more, n - 1);
      assert (h + more)[n - 1] == h[n - 1];
      if b.Outside(h, n - 1) {
        ExtensionKeepsOutside(b, h, more, n - 1);
      }
    }
  }

  lemma {:induction false} GainsMonotone(b: Budget, h: seq<Message>, m: nat, n: nat)
    requires m <= n <= |h|
    ensures b.OutsideTokens(h, m) <= b.OutsideTokens(h, n)
    decreases n - m
  {
    if m < n {
      GainsMonotone(b, h, m, n - 1);
    }
  }

  /** Expansion-only: on any extension of the history every placeholder the call
      placed is placed again, with the same whole message. */
  lemma ExpansionOnly(b: Budget, h: seq<Message>, more: seq<Message>, i: nat)
    requires i < |h| && b.Governed(h)[i] != h[i]
    ensures b.Governed(h + more)[i] == b.Governed(h)[i]
    ensures b.Governed(h)[i].content == Text(CLEARED_PLACEHOLDER)
  {
    TotalAppend(b, h, more);
    ExtensionGains(b, h, more, |h|);
    GainsMonotone(b, h + more, |h|, |h + more|);
    ExtensionKeepsOutside(b, h, more, i);
  }

  /** Over a growing history the placeholders form a growing prefix of the tool
      results: a clearable result older than a placeholder is one too. */
  lemma PlaceholdersAreAPrefix(b: Budget, h: seq<Message>, i: nat, j: nat)
    requires i <= j < |h| && b.Cleared(h, j)
    requires b.Compactable(h[i]) && b.Clearable(h[i])
    ensures b.Governed(h)[i] == Clear(h[i])
  {
    OlderIsOutside(b, h, i, j);
  }

  lemma {:induction false} WindowUntouched(b: Budget, h: seq<Message>, i: nat)
    requires i <= |h|
    requires forall j :: i <= j < |h| ==> !b.Cleared(h, j)
    ensures b.Governed(h)[i..] == h[i..]
  {
  }

  lemma {:induction false} GovernedToolCount(b: Budget, h: seq<Message>, i: nat)
    requires i <= |h|
    ensures b.ToolCount(b.Governed(h)[i..]) == b.ToolCount(h[i..])
    decreases |h| - i
  {
    if i < |h| {
      assert h[i..][1..] == h[i + 1..] && b.Governed(h)[i..][1..] == b.Governed(h)[i + 1..];
      GovernedToolCount(b, h, i + 1);
    }
  }

  lemma NotClearedAgain(b: Budget, h: seq<Message>, i: nat)
    requires i < |h|
    ensures !b.Cleared(b.Governed(h), i)
  {
    if !b.Prunes(h) {
      GateClosed(b, h);
    } else if b.Compactable(h[i]) && !b.Outside(h, i) {
      forall j | i <= j < |h|
        ensures !b.Cleared(h, j)
      {
        if b.Outside(h, j) {
          OlderIsOutside(b, h, i, j);
        }
      }
      WindowUntouched(b, h, i);
      GovernedToolCount(b, h, i + 1);
    }
  }

  /** A second pass over its own output changes nothing, whatever the estimator
      says of the placeholder. */
  lemma Idempotent(b: Budget, h: seq<Message>)
    ensures b.Governed(b.Governed(h)) == b.Governed(h)
  {
    forall i | 0 <= i < |h|
      ensures !b.Cleared(b.Governed(h), i)
    {
      NotClearedAgain(b, h, i);
    }
  }

  // ---- The algorithm ----

  /** The compactable results as (index, tokens), oldest first. */
  ghost function Entries(b: Budget, messages: seq<Message>, from: nat): seq<(nat, nat)>
    requires from <= |messages|
    decreases |messages| - from
  {
    if from == |messages| then []
    else if b.Compactable(messages[from]) then [(from, b.Tokens(messages[from]))] + Entries(b, messages, from + 1)
    else Entries(b, messages, from + 1)
  }

  function SumTokens(entries: seq<(nat, nat)>): nat {
    if entries == [] then 0 else entries[0].1 + SumTokens(entries[1..])
  }

  lemma {:induction false} EntriesMeasure(b: Budget, messages: seq<Message>, from: nat)
    requires from <= |messages|
    ensures |Entries(b, messages, from)| == b.ToolCount(messages[from..])
    ensures SumTokens(Entries(b, messages, from)) == b.ToolTokens(messages[from..])
    decreases |messages| - from
  {
    if from < |messages| {
      assert messages[from..][1..] == messages[from + 1..];
      EntriesMeasure(b, messages, from + 1);
      if b.Compactable(messages[from]) {
        assert Entries(b, messages, from)[1..] == Entries(b, messages, from + 1);
      }
    }
  }

  /** The k-th entry is a compactable result, and the entries from it on are those of
      the messages from it on. */
  lemma {:induction false} EntryPosition(b: Budget, messages: seq<Message>, from: nat, k: nat)
    requires from <= |messages| && k < |Entries(b, messages, from)|
    ensures var es := Entries(b, messages, from); var i := es[k].0;
            && from <= i < |messages| && b.Compactable(messages[i]) && es[k].1 == b.Tokens(messages[i])
            && es[k..] == Entries(b, messages, i)
    decreases |messages| - from
  {
    var es := Entries(b, messages, from);
    if !b.Compactable(messages[from]) {
      EntryPosition(b, messages, from + 1, k);
    } else if k > 0 {
      EntryPosition(b, messages, from + 1, k - 1);
      assert es[k..] == es[1..][k - 1..];
    }
  }

  /** The k-th entry measured at its message: what follows it and what it weighs. */
  lemma EntryAt(b: Budget, messages: seq<Message>, from: nat, k: nat)
    requires from <= |messages| && k < |Entries(b, messages, from)|
    ensures var es := Entries(b, messages, from); var i := es[k].0;
            && from <= i < |messages| && b.Compactable(messages[i]) && es[k].1 == b.Tokens(messages[i])
            && |es| - 1 - k == b.ToolCount(messages[i + 1..])
            && SumTokens(es[k..]) == b.ToolTokens(messages[i..])
            && es[k + 1..] == Entries(b, messages, i + 1)
  {
    var es := Entries(b, messages, from);
    var i := es[k].0;
    EntryPosition(b, messages, from, k);
    EntriesMeasure(b, messages, i);
    EntriesMeasure(b, messages, i + 1);
    assert es[k + 1..] == es[k..][1..];
  }

  lemma {:induction false} EntryOf(b: Budget, messages: seq<Message>, from: nat, i: nat) returns (k: nat)
    requires from <= i < |messages| && b.Compactable(messages[i])
    ensures k < |Entries(b, messages, from)| && Entries(b, messages, from)[k].0 == i
    decreases i - from
  {
    if from == i {
      k := 0;
    } else {
      k := EntryOf(b, messages, from + 1, i);
      if b.Compactable(messages[from]) { k := k + 1; }
    }
  }

  lemma {:induction false} EntriesOrdered(b: Budget, messages: seq<Message>, from: nat, k: nat, l: nat)
    requires from <= |messages| && k < l < |Entries(b, messages, from)|
    ensures Entries(b, messages, from)[k].0 < Entries(b, messages, from)[l].0
  {
    EntryAt(b, messages, from, k);
    var i := Entries(b, messages, from)[k].0;
    EntryAt(b, messages, i + 1, l - k - 1);
    assert Entries(b, messages, from)[l] == Entries(b, messages, from)[k + 1..][l - k - 1];
  }

  /** `ws` splits a list of entries: exactly the ones before it lie outside. */
  ghost predicate SplitAt(b: Budget, messages: seq<Message>, es: seq<(nat, nat)>, ws: nat) {
    && ws <= |es|
    && forall k :: 0 <= k < |es| ==> es[k].0 < |messages| && (k < ws <==> b.Outside(messages, es[k].0))
  }

  ghost predicate Splits(b: Budget, messages: seq<Message>, ws: nat) {
    SplitAt(b, messages, Entries(b, messages, 0), ws)
  }

  /** Some entry is at message `i`. */
  predicate Has(entries: seq<(nat, nat)>, i: nat) {
    exists k :: 0 <= k < |entries| && entries[k].0 == i
  }

  lemma {:induction false} SumSuffixMonotone(entries: seq<(nat, nat)>, k: nat, l: nat)
    requires k <= l <= |entries|
    ensures SumTokens(entries[l..]) <= SumTokens(entries[k..])
    decreases l - k
  {
    if k < l {
      SumSuffixMonotone(entries, k + 1, l);
    }
  }

  /** What the backward walk establishes is exactly the split. */
  lemma WalkSplits(b: Budget, messages: seq<Message>, es: seq<(nat, nat)>, floorStart: nat, ws: nat)
    requires es == Entries(b, messages, 0) && floorStart + b.keepRecent == |es|
    requires ws <= floorStart
    requires ws > 0 ==> SumTokens(es[ws - 1..]) > b.protectTokens
    requires ws < floorStart ==> SumTokens(es[ws..]) <= b.protectTokens
    ensures Splits(b, messages, ws)
  {
    forall k | 0 <= k < |es|
      ensures es[k].0 < |messages| && (k < ws <==> b.Outside(messages, es[k].0))
    {
      EntryAt(b, messages, 0, k);
      if k < ws {
        SumSuffixMonotone(es, k, ws - 1);
      } else if k < floorStart {
        SumSuffixMonotone(es, ws, k);
      }
    }
  }

  lemma SplitTail(b: Budget, messages: seq<Message>, es: seq<(nat, nat)>, ws: nat)
    requires SplitAt(b, messages, es, ws) && es != []
    ensures SplitAt(b, messages, es[1..], if ws > 0 then ws - 1 else 0)
    ensures es[0].0 < |messages| && (b.Outside(messages, es[0].0) <==> ws > 0)
    ensures SumTokens(es[..ws]) == if ws > 0 then es[0].1 + SumTokens(es[1..][..ws - 1]) else 0
  {
    if ws > 0 {
      assert es[..ws][1..] == es[1..][..ws - 1];
    }
  }

  /** The gate compares the tokens outside the window. */
  lemma {:induction false} OutsideTokensAre(b: Budget, messages: seq<Message>, from: nat, es: seq<(nat, nat)>, ws: nat)
    requires from <= |messages| && es == Entries(b, messages, from) && SplitAt(b, messages, es, ws)
    ensures b.OutsideTokens(messages, |messages|) == b.OutsideTokens(messages, from) + SumTokens(es[..ws])
    decreases |messages| - from
  {
    if from < |messages| {
      if b.Compactable(messages[from]) {
        assert es[1..] == Entries(b, messages, from + 1);
        SplitTail(b, messages, es, ws);
        OutsideTokensAre(b, messages, from + 1, es[1..], if ws > 0 then ws - 1 else 0);
      } else {
        OutsideTokensAre(b, messages, from + 1, es, ws);
      }
    }
  }

  method CollectEntries(b: Budget, messages: seq<Message>, msgTokens: seq<nat>) returns (toolEntries: seq<(nat, nat)>)
    requires |msgTokens| == |messages| && forall i :: 0 <= i < |messages| ==> msgTokens[i] == b.Tokens(messages[i])
    ensures toolEntries == Entries(b, messages, 0)
  {
    toolEntries := [];
    for i := 0 to |messages|
      invariant toolEntries + Entries(b, messages, i) == Entries(b, messages, 0)
    {
      if b.Compactable(messages[i]) {
        toolEntries := toolEntries + [(i, msgTokens[i])];
      }
    }
  }

  /** The walk from the floor towards the oldest entry. */
  method FindWindow(b: Budget, toolEntries: seq<(nat, nat)>) returns (windowStart: nat)
    requires |toolEntries| > b.keepRecent
    ensures windowStart <= |toolEntries| - b.keepRecent
    ensures windowStart > 0 ==> SumTokens(toolEntries[windowStart - 1..]) > b.protectTokens
    ensures windowStart < |toolEntries| - b.keepRecent ==> SumTokens(toolEntries[windowStart..]) <= b.protectTokens
  {
    var floorStart := |toolEntries| - b.keepRecent;
    var accumulated := SumTokens(toolEntries[floorStart..]);
    windowStart := 0;
    var j := floorStart;
    while j > 0
      invariant 0 <= j <= floorStart
      invariant accumulated == SumTokens(toolEntries[j..])
      invariant j < floorStart ==> accumulated <= b.protectTokens
      invariant windowStart == 0
    {
      j := j - 1;
      accumulated := accumulated + toolEntries[j].1;
      if accumulated > b.protectTokens {
        windowStart := j + 1;
        break;
      }
    }
  }

  method PruneByWindow(b: Budget, messages: seq<Message>, msgTokens: seq<nat>) returns (result: seq<Message>)
    requires b.Total(messages) > b.threshold
    requires |msgTokens| == |messages| && forall i :: 0 <= i < |messages| ==> msgTokens[i] == b.Tokens(messages[i])
    ensures result == b.Governed(messages)
  {
    var toolEntries := CollectEntries(b, messages, msgTokens);
    if |toolEntries| <= b.keepRecent {
      NothingOutside(b, messages);
      return messages;
    }
    var windowStart := FindWindow(b, toolEntries);
    WalkSplits(b, messages, toolEntries, |toolEntries| - b.keepRecent, windowStart);
    var outside := toolEntries[..windowStart];
    OutsideTokensAre(b, messages, 0, toolEntries, windowStart);
    if SumTokens(outside) < b.minGain {
      GateClosed(b, messages);
      return messages;
    }
    OutsideOrdered(b, messages, windowStart);
    result := ReplaceAll(b, messages, outside);
    ReplacedIsGoverned(b, messages, windowStart, result);
  }

  lemma GateClosed(b: Budget, messages: seq<Message>)
    requires !b.Prunes(messages)
    ensures b.Governed(messages) == messages
  {
  }

  lemma OutsideOrdered(b: Budget, messages: seq<Message>, ws: nat)
    requires Splits(b, messages, ws)
    ensures var outside := Entries(b, messages, 0)[..ws];
      && (forall k :: 0 <= k < |outside| ==> outside[k].0 < |messages|)
      && (forall k, l :: 0 <= k < l < |outside| ==> outside[k].0 < outside[l].0)
  {
    var outside := Entries(b, messages, 0)[..ws];
    forall k, l | 0 <= k < l < |outside|
      ensures outside[k].0 < outside[l].0
    {
      EntriesOrdered(b, messages, 0, k, l);
    }
  }

  lemma NothingOutside(b: Budget, messages: seq<Message>)
    requires |Entries(b, messages, 0)| <= b.keepRecent
    ensures b.Governed(messages) == messages
  {
    forall i | 0 <= i < |messages|
      ensures !b.Cleared(messages, i)
    {
      if b.Compactable(messages[i]) {
        var k := EntryOf(b, messages, 0, i);
        EntryAt(b, messages, 0, k);
      }
    }
  }

  /** What replacing at the entries leaves at message `i`. */
  function Replaced(b: Budget, messages: seq<Message>, entries: seq<(nat, nat)>, i: nat): Message
    requires i < |messages|
  {
    if Has(entries, i) && b.Clearable(messages[i]) then Clear(messages[i]) else messages[i]
  }

  /** One-shot replacement of the listed entries, lossy and empty ones skipped. */
  method ReplaceAll(b: Budget, messages: seq<Message>, outside: seq<(nat, nat)>) returns (result: seq<Message>)
    requires forall k :: 0 <= k < |outside| ==> outside[k].0 < |messages|
    requires forall k, l :: 0 <= k < l < |outside| ==> outside[k].0 < outside[l].0
    ensures |result| == |messages|
    ensures forall i :: 0 <= i < |messages| ==> result[i] == Replaced(b, messages, outside, i)
  {
    result := messages;
    assert forall i :: 0 <= i < |messages| ==> !Has(outside[..0], i);
    for n := 0 to |outside|
      invariant |result| == |messages|
      invariant forall i :: 0 <= i < |messages| ==> result[i] == Replaced(b, messages, outside[..n], i)
    {
      var idx := outside[n].0;
      var msg := result[idx];
      assert msg == messages[idx];
      if !msg.lossy && msg.content.Text? && msg.content.text != "" {
        result := result[idx := Clear(msg)];
      }
    }
    assert outside[..|outside|] == outside;
  }

  lemma ReplacedIsGoverned(b: Budget, messages: seq<Message>, ws: nat, result: seq<Message>)
    requires Splits(b, messages, ws) && b.Prunes(messages)
    requires |result| == |messages|
    requires forall i :: 0 <= i < |messages| ==> result[i] == Replaced(b, messages, Entries(b, messages, 0)[..ws], i)
    ensures result == b.Governed(messages)
  {
    forall i | 0 <= i < |messages|
      ensures result[i] == b.Governed(messages)[i]
    {
      HasIffOutside(b, messages, ws, i);
    }
  }

  lemma HasIffOutside(b: Budget, messages: seq<Message>, ws: nat, i: nat)
    requires Splits(b, messages, ws) && i < |messages|
    ensures Has(Entries(b, messages, 0)[..ws], i) <==> b.Outside(messages, i)
  {
    var es := Entries(b, messages, 0);
    if b.Outside(messages, i) {
      var k := EntryOf(b, messages, 0, i);
      assert es[..ws][k].0 == i;
    }
  }

  // ---- What a caller sees ----

  // The promise of `Apply` over messages and numbers: which results there are, what they
  // weigh, and which of them lie beyond the protected window.

  predicate IsResult(m: Message, whitelist: set<string>) {
    m.role == Tool && (m.name.None? || m.name.value !in whitelist)
  }

  /** The places from `from` on that hold a result. */
  function ResultsFrom(messages: seq<Message>, whitelist: set<string>, from: int): set<int> {
    set j | 0 <= j < |messages| && from <= j && IsResult(messages[j], whitelist)
  }

  /** At least `keepRecent` results are newer, and the results from this one on weigh more
      than the protected tokens. */
  predicate Beyond(b: Budget, messages: seq<Message>, i: int) {
    && i in ResultsFrom(messages, b.whitelist, 0)
    && |ResultsFrom(messages, b.whitelist, i + 1)| >= b.keepRecent
    && SumAt(Weights(messages, b.estimate), ResultsFrom(messages, b.whitelist, i)) > b.protectTokens
  }

  function AllBeyond(b: Budget, messages: seq<Message>): set<int> {
    set i | 0 <= i < |messages| && Beyond(b, messages, i)
  }

  /** The history is over the threshold and clearing what lies beyond is worth it. */
  predicate WorthIt(b: Budget, messages: seq<Message>) {
    var weights := Weights(messages, b.estimate);
    && Sum(weights) > b.threshold
    && SumAt(weights, AllBeyond(b, messages)) >= b.minGain
  }

  predicate HasText(m: Message) {
    !m.lossy && m.content.Text? && m.content.text != ""
  }

  /** A message that changes is a tool result outside the whitelist with text of its own;
      it gets the placeholder and the three reduction fields, and keeps all the others.
      Exactly those beyond the window change, when the pass is worth it. */
  ghost predicate GovernPromise(b: Budget, messages: seq<Message>, result: seq<Message>) {
    && |result| == |messages|
    && (forall i :: 0 <= i < |messages| && result[i] != messages[i] ==>
          && messages[i].role == Tool && !(messages[i].name.Some? && messages[i].name.value in b.whitelist)
          && HasText(messages[i])
          && result[i] == messages[i].(content := Text("[Old tool result content cleared]"), lossy := true,
                                       originalChars := Some(|messages[i].content.text|),
                                       reduction := Some("tool_result_pruned")))
    && (forall i :: 0 <= i < |messages| ==>
          (result[i] != messages[i] <==> WorthIt(b, messages) && Beyond(b, messages, i) && HasText(messages[i])))
  }

  lemma {:induction false} TotalIsSum(b: Budget, messages: seq<Message>)
    ensures b.Total(messages) == Sum(Weights(messages, b.estimate))
  {
    if messages != [] {
      var n := |messages| - 1;
      TotalIsSum(b, messages[..n]);
      assert messages == messages[..n] + [messages[n]];
      TotalAppend(b, messages[..n], [messages[n]]);
      assert b.Total([messages[n]]) == b.Tokens(messages[n]) + b.Total([messages[n]][1..]);
      assert Weights(messages, b.estimate)[..n] == Weights(messages[..n], b.estimate);
    }
  }

  lemma LastResult(messages: seq<Message>, whitelist: set<string>, i: nat)
    requires i < |messages|
    ensures var n := |messages| - 1;
      ResultsFrom(messages, whitelist, i)
      == ResultsFrom(messages[..n], whitelist, i) + (if IsResult(messages[n], whitelist) then {n} else {})
  {
  }

  lemma {:induction false} CountIsSize(b: Budget, messages: seq<Message>, i: nat)
    requires i <= |messages|
    ensures b.ToolCount(messages[i..]) == |ResultsFrom(messages, b.whitelist, i)|
    decreases |messages|
  {
    if i == |messages| {
      assert ResultsFrom(messages, b.whitelist, i) == {};
    } else {
      var n := |messages| - 1;
      CountIsSize(b, messages[..n], i);
      assert messages[i..] == messages[..n][i..] + [messages[n]];
      TotalAppend(b, messages[..n][i..], [messages[n]]);
      OneResult(b, messages[n]);
      LastResult(messages, b.whitelist, i);
    }
  }

  lemma {:induction false} SuffixIsSum(b: Budget, messages: seq<Message>, i: nat)
    requires i <= |messages|
    ensures b.ToolTokens(messages[i..]) == SumAt(Weights(messages, b.estimate), ResultsFrom(messages, b.whitelist, i))
    decreases |messages|
  {
    if i == |messages| {
      assert ResultsFrom(messages, b.whitelist, i) == {};
      NothingSums(Weights(messages, b.estimate));
    } else {
      var n := |messages| - 1;
      SuffixIsSum(b, messages[..n], i);
      assert messages[i..] == messages[..n][i..] + [messages[n]];
      TotalAppend(b, messages[..n][i..], [messages[n]]);
      OneResult(b, messages[n]);
      LastResult(messages, b.whitelist, i);
      WeightsStep(b, messages, ResultsFrom(messages[..n], b.whitelist, i), ResultsFrom(messages, b.whitelist, i));
    }
  }

  lemma WeightsStep(b: Budget, messages: seq<Message>, p: set<int>, q: set<int>)
    requires messages != [] && forall i :: 0 <= i < |messages| - 1 ==> (i in p <==> i in q)
    ensures var n := |messages| - 1;
      SumAt(Weights(messages, b.estimate), q)
      == SumAt(Weights(messages[..n], b.estimate), p) + if n in q then Weights([messages[n]], b.estimate)[0] else 0
  {
    var n := |messages| - 1;
    assert Weights(messages, b.estimate)[..n] == Weights(messages[..n], b.estimate);
    SumAgrees(Weights(messages[..n], b.estimate), p, q);
  }

  lemma OneResult(b: Budget, m: Message)
    ensures b.ToolCount([m]) == if IsResult(m, b.whitelist) then 1 else 0
    ensures b.ToolTokens([m]) == if IsResult(m, b.whitelist) then Weights([m], b.estimate)[0] else 0
  {
    assert [m][1..] == [];
    assert b.ToolCount([m][1..]) == 0 && b.ToolTokens([m][1..]) == 0;
  }

  lemma OutsideIsBeyond(b: Budget, messages: seq<Message>, i: nat)
    requires i < |messages|
    ensures b.Outside(messages, i) <==> Beyond(b, messages, i)
  {
    SuffixIsSum(b, messages, i);
    CountIsSize(b, messages, i + 1);
    OneResult(b, messages[i]);
  }

  lemma {:induction false} GainIsSum(b: Budget, messages: seq<Message>, n: nat)
    requires n <= |messages|
    ensures b.OutsideTokens(messages, n) == SumAt(Weights(messages, b.estimate)[..n], AllBeyond(b, messages))
  {
    if n > 0 {
      GainIsSum(b, messages, n - 1);
      OutsideIsBeyond(b, messages, n - 1);
      assert Weights(messages, b.estimate)[..n][..n - 1] == Weights(messages, b.estimate)[..n - 1];
    }
  }

  lemma GovernedPromised(b: Budget, messages: seq<Message>)
    ensures GovernPromise(b, messages, b.Governed(messages))
  {
    TotalIsSum(b, messages);
    GainIsSum(b, messages, |messages|);
    assert Weights(messages, b.estimate)[..|messages|] == Weights(messages, b.estimate);
    forall i | 0 <= i < |messages|
      ensures b.Cleared(messages, i) <==> WorthIt(b, messages) && Beyond(b, messages, i) && HasText(messages[i])
    {
      OutsideIsBeyond(b, messages, i);
    }
  }

  /** Under budget nothing is touched; over it the window decides. */
  method Apply(b: Budget, messages: seq<Message>) returns (result: seq<Message>)
    ensures result == b.Governed(messages)
    ensures GovernPromise(b, messages, result)
  {
    GovernedPromised(b, messages);
    if messages == [] {
      return [];
    }
    var msgTokens := seq(|messages|, i requires 0 <= i < |messages| => b.Tokens(messages[i]));
    var total := 0;
    for i := 0 to |messages|
      invariant total + b.Total(messages[i..]) == b.Total(messages)
    {
      assert messages[i..][1..] == messages[i + 1..];
      total := total + msgTokens[i];
    }
    if total <= b.threshold {
      GateClosed(b, messages);
      return messages;
    }
    result := PruneByWindow(b, messages, msgTokens);
  }
}
