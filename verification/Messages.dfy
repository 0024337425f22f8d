/** Conversation messages as governance and cleanup read them (message.py). */
module Messages {
  import opened Outcomes

  datatype Role = System | User | Assistant | Tool | Agent | Compact | Pending | SystemReminder

  // Message content: text, or anything else (a parts list, a missing value).
  datatype Content = Text(text: string) | NotText

  datatype Message = Message(
    role: Role,
    name: Option<string>,
    content: Content,
    toolCallId: Option<string>,          // of a tool result
    toolCalls: seq<Option<string>>,      // ids of the calls an assistant message makes
    tokenCount: Option<int>,
    lossy: bool,
    originalChars: Option<nat>,
    reduction: Option<string>)

  // The token estimator is a parameter: any non-negative function of a message.
  type Estimator = Message -> nat

  /** The cached count when it is a positive integer, else a fresh estimate
      (cleanup.py:724-738, context_governance.py:125-137). */
  function ResolveTokens(m: Message, estimate: Estimator): nat {
    if m.tokenCount.Some? && m.tokenCount.value > 0 then m.tokenCount.value else estimate(m)
  }

  // ---- Weights and their sums ----

  // What promises about tokens are stated in: the weight of each message, cached counts
  // first, and sums over the history or over some of its places.

  function Weights(messages: seq<Message>, estimate: Estimator): (w: seq<nat>)
    ensures |w| == |messages|
  {
    seq(|messages|, i requires 0 <= i < |messages| =>
          var count := messages[i].tokenCount;
          if count.Some? && count.value > 0 then count.value else estimate(messages[i]))
  }

  function Sum(weights: seq<nat>): nat {
    if weights == [] then 0 else Sum(weights[..|weights| - 1]) + weights[|weights| - 1]
  }

  function SumAt(weights: seq<nat>, places: set<int>): nat {
    if weights == [] then 0
    else
      var n := |weights| - 1;
      SumAt(weights[..n], places) + if n in places then weights[n] else 0
  }

  lemma {:induction false} SumAgrees(weights: seq<nat>, p: set<int>, q: set<int>)
    requires forall i :: 0 <= i < |weights| ==> (i in p <==> i in q)
    ensures SumAt(weights, p) == SumAt(weights, q)
  {
    if weights != [] {
      SumAgrees(weights[..|weights| - 1], p, q);
    }
  }

  lemma {:induction false} NothingSums(weights: seq<nat>)
    ensures SumAt(weights, {}) == 0
  {
    if weights != [] {
      NothingSums(weights[..|weights| - 1]);
    }
  }
}
