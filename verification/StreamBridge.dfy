/** The callback-to-event bridge of `CallbackStreamProvider.stream`
    (provider.py:345-447), the `EventAssembler` that folds events back into a
    response (stream_events.py:132-271), and the retry executor
    (provider.py:204-267). */
module StreamBridge {
  import opened Outcomes

  datatype FinishReason = Stop | ToolCalls | Length | ContentFilter | ErrorReason | Cancelled

  datatype ErrorKind = Timeout | RateLimit | Auth | Quota | Connection | Server | InvalidRequest | Filtered | Unknown

  datatype ErrorInfo = ErrorInfo(kind: ErrorKind, message: string, shouldRetry: bool)

  datatype Usage = Usage(input: int, cacheRead: int, cacheCreation: int, output: int, reasoning: int)

  const NO_USAGE := Usage(0, 0, 0, 0, 0)

  datatype ToolCall = ToolCall(callId: Option<string>, toolName: string, arguments: string)

  datatype Response = Response(
    content: Option<string>,
    toolCalls: seq<ToolCall>,
    reasoning: Option<string>,
    signature: Option<string>,
    finish: FinishReason,
    usage: Usage,
    error: Option<string>,
    errorInfo: Option<ErrorInfo>)

  datatype Replay = Replay(reasoning: Option<string>, signature: Option<string>)

  datatype Event =
    | TextDelta(text: string)
    | ReasoningDelta(text: string)
    | ToolCallComplete(callId: string, toolName: string, arguments: string)
    | UsageSnapshot(usage: Usage)
    | Finish(reason: FinishReason, replay: Option<Replay>)
    | StreamFailure(info: ErrorInfo, partial: string)

  predicate Terminal(e: Event) { e.Finish? || e.StreamFailure? }

  /** Exactly one terminal event, in last place. */
  ghost predicate WellTerminated(events: seq<Event>) {
    && |events| > 0 && Terminal(events[|events| - 1])
    && forall i :: 0 <= i < |events| - 1 ==> !Terminal(events[i])
  }

  // ---- The assembler ----

  // What has been accumulated: text, reasoning, tool calls and the last usage.
  datatype Acc = Acc(text: string, reasoning: string, calls: seq<ToolCall>, usage: Usage)

  const EMPTY := Acc("", "", [], NO_USAGE)

  function Absorb(acc: Acc, e: Event): Acc {
    match e
    case TextDelta(text) => acc.(text := acc.text + text)
    case ReasoningDelta(text) => acc.(reasoning := acc.reasoning + text)
    case ToolCallComplete(callId, toolName, arguments) =>
      acc.(calls := acc.calls + [ToolCall(Some(callId), toolName, arguments)])
    case UsageSnapshot(usage) => acc.(usage := usage)
    case _ => acc
  }

  function Fold(acc: Acc, events: seq<Event>): Acc
    decreases |events|
  {
    if events == [] then acc else Fold(Absorb(acc, events[0]), events[1..])
  }

  function Join(parts: seq<string>): string {
    if parts == [] then "" else parts[0] + Join(parts[1..])
  }

  function NoneIfEmpty(s: string): Option<string> { if s == "" then None else Some(s) }

  function OrEmpty(s: Option<string>): string { if s.Some? then s.value else "" }

  const EOF_WITHOUT_TERMINAL := "stream ended without terminal event"

  /** What the assembler makes of a fed event sequence. */
  function Assembled(events: seq<Event>): Response {
    Assemble(Fold(EMPTY, events),
             if events != [] && Terminal(events[|events| - 1]) then Some(events[|events| - 1]) else None)
  }

  function Assemble(acc: Acc, terminal: Option<Event>): Response {
    match terminal
    case Some(StreamFailure(info, partial)) =>
      Response(Some(partial + acc.text), [], None, None, ErrorReason, NO_USAGE, Some(info.message), Some(info))
    case Some(Finish(reason, replay)) =>
      var final :=
        if replay.Some? && replay.value.reasoning.Some? then replay.value.reasoning else NoneIfEmpty(acc.reasoning);
      var signature := if replay.Some? then replay.value.signature else None;
      Response(NoneIfEmpty(acc.text), acc.calls, final, signature, reason, acc.usage, None, None)
    case _ =>
      Response(Some(acc.text), [], None, None, ErrorReason, NO_USAGE, Some(EOF_WITHOUT_TERMINAL),
               Some(ErrorInfo(Timeout, EOF_WITHOUT_TERMINAL, true)))
  }

  class EventAssembler {
    var contentParts: seq<string>
    var reasoningParts: seq<string>
    var toolCalls: seq<ToolCall>
    var usage: Usage
    var terminal: Option<Event>
    var closed: bool
    ghost var fed: seq<Event>

    constructor ()
      ensures Valid() && fed == [] && !closed
    {
      contentParts, reasoningParts, toolCalls, usage, terminal, closed := [], [], [], NO_USAGE, None, false;
      fed := [];
    }

    ghost predicate Valid()
      reads this
    {
      && Acc(Join(contentParts), Join(reasoningParts), toolCalls, usage) == Fold(EMPTY, fed)
      && EndsWith(fed, terminal) && (terminal.Some? ==> closed)
    }

    /** Folds one event in; after the terminal event or `result` it refuses. */
    method Feed(event: Event) returns (accepted: bool)
      requires Valid()
      modifies this
      ensures Valid() && accepted == !old(closed)
      ensures fed == if accepted then old(fed) + [event] else old(fed)
      ensures closed == (old(closed) || Terminal(event))
    {
      if closed {
        return false;
      }
      FoldSnoc(EMPTY, fed, event);
      EndSnoc(fed, event);
      match event {
        case TextDelta(text) =>
          if text != "" { JoinSnoc(contentParts, text); contentParts := contentParts + [text]; }
        case ReasoningDelta(text) =>
          if text != "" { JoinSnoc(reasoningParts, text); reasoningParts := reasoningParts + [text]; }
        case ToolCallComplete(callId, toolName, arguments) =>
          toolCalls := toolCalls + [ToolCall(Some(callId), toolName, arguments)];
        case UsageSnapshot(u) =>
          usage := u;
        case _ =>
          terminal := Some(event);
          closed := true;
      }
      fed := fed + [event];
      accepted := true;
    }

    /** The response of everything fed so far; closing, and the same every time. */
    method Result() returns (response: Response)
      requires Valid()
      modifies this`closed
      ensures Valid() && closed && response == Assembled(fed)
    {
      closed := true;
      response := Assemble(Acc(Join(contentParts), Join(reasoningParts), toolCalls, usage), terminal);
    }
  }

  /** `terminal` is the one terminal event of `events`, in last place, if any. */
  ghost predicate EndsWith(events: seq<Event>, terminal: Option<Event>) {
    if terminal.None? then forall i :: 0 <= i < |events| ==> !Terminal(events[i])
    else WellTerminated(events) && terminal.value == events[|events| - 1]
  }

  lemma EndSnoc(events: seq<Event>, e: Event)
    requires EndsWith(events, None)
    ensures EndsWith(events + [e], if Terminal(e) then Some(e) else None)
  {
  }

  lemma {:induction false} FoldAppend(acc: Acc, a: seq<Event>, b: seq<Event>)
    ensures Fold(acc, a + b) == Fold(Fold(acc, a), b)
    decreases |a|
  {
    if a == [] {
      assert a + b == b;
    } else {
      assert (a + b)[1..] == a[1..] + b;
      FoldAppend(Absorb(acc, a[0]), a[1..], b);
    }
  }

  lemma FoldSnoc(acc: Acc, events: seq<Event>, e: Event)
    ensures Fold(acc, events + [e]) == Absorb(Fold(acc, events), e)
  {
    FoldAppend(acc, events, [e]);
    FoldOne(Fold(acc, events), e);
  }

  lemma FoldOne(acc: Acc, e: Event)
    ensures Fold(acc, [e]) == Absorb(acc, e)
  {
    assert [e][1..] == [];
    assert Fold(Absorb(acc, e), []) == Absorb(acc, e);
  }

  lemma {:induction false} JoinSnoc(parts: seq<string>, text: string)
    ensures Join(parts + [text]) == Join(parts) + text
  {
    if parts == [] {
      assert [] + [text] == [text] && [text][1..] == [];
    } else {
      assert (parts + [text])[1..] == parts[1..] + [text];
      JoinSnoc(parts[1..], text);
    }
  }

  // ---- What the assembler makes of events, without folding ----

  function Texts(events: seq<Event>): string {
    if events == [] then "" else (if events[0].TextDelta? then events[0].text else "") + Texts(events[1..])
  }

  function Thoughts(events: seq<Event>): string {
    if events == [] then "" else (if events[0].ReasoningDelta? then events[0].text else "") + Thoughts(events[1..])
  }

  function CallOf(e: Event): seq<ToolCall> {
    if e.ToolCallComplete? then [ToolCall(Some(e.callId), e.toolName, e.arguments)] else []
  }

  function Calls(events: seq<Event>): seq<ToolCall> {
    if events == [] then []
    else CallOf(events[0]) + Calls(events[1..])
  }

  /** The last usage reported, if any. */
  function LastUsage(events: seq<Event>, before: Usage): Usage {
    if events == [] then before
    else LastUsage(events[1..], if events[0].UsageSnapshot? then events[0].usage else before)
  }

  lemma Grouped<T>(a: seq<T>, b: seq<T>, c: seq<T>)
    ensures a + b + c == a + (b + c) && a + [] == a && [] + a == a
  {
  }

  lemma {:induction false} FoldIs(acc: Acc, events: seq<Event>)
    ensures Fold(acc, events)
         == Acc(acc.text + Texts(events), acc.reasoning + Thoughts(events),
                acc.calls + Calls(events), LastUsage(events, acc.usage))
    decreases |events|
  {
    if events == [] {
      Grouped(acc.text, "", "");
      Grouped(acc.reasoning, "", "");
      Grouped(acc.calls, [], []);
    } else {
      var e := events[0];
      FoldIs(Absorb(acc, e), events[1..]);
      Grouped(acc.text, if e.TextDelta? then e.text else "", Texts(events[1..]));
      Grouped(acc.reasoning, if e.ReasoningDelta? then e.text else "", Thoughts(events[1..]));
      Grouped(acc.calls, CallOf(e), Calls(events[1..]));
    }
  }

  lemma FoldFromEmpty(events: seq<Event>)
    ensures Fold(EMPTY, events) == Acc(Texts(events), Thoughts(events), Calls(events), LastUsage(events, NO_USAGE))
  {
    FoldIs(EMPTY, events);
    Grouped(Texts(events), "", "");
    Grouped(Thoughts(events), "", "");
    Grouped(Calls(events), [], []);
  }

  lemma FoldUpTo(events: seq<Event>, last: Event)
    requires Terminal(last)
    ensures Fold(EMPTY, events + [last])
         == Acc(Texts(events), Thoughts(events), Calls(events), LastUsage(events, NO_USAGE))
    ensures (events + [last])[|events + [last]| - 1] == last
  {
    FoldSnoc(EMPTY, events, last);
    FoldFromEmpty(events);
  }

  /** A finished stream gives the concatenated text, none when there is none, all
      tool calls in order and the last usage; a replayed reasoning wins over the
      reasoning deltas. */
  lemma FinishedResponse(events: seq<Event>, reason: FinishReason, replay: Option<Replay>)
    ensures var r := Assembled(events + [Finish(reason, replay)]);
      && OrEmpty(r.content) == Texts(events) && (r.content.None? <==> Texts(events) == "")
      && r.toolCalls == Calls(events) && r.usage == LastUsage(events, NO_USAGE)
      && r.finish == reason && r.error.None? && r.errorInfo.None?
      && (if replay.Some? && replay.value.reasoning.Some? then r.reasoning == replay.value.reasoning
          else OrEmpty(r.reasoning) == Thoughts(events) && (r.reasoning.None? <==> Thoughts(events) == ""))
      && r.signature == if replay.Some? then replay.value.signature else None
  {
    FoldUpTo(events, Finish(reason, replay));
  }

  /** A failed stream keeps its text, behind the partial text of the failure. */
  lemma FailedResponse(events: seq<Event>, info: ErrorInfo, partial: string)
    ensures var r := Assembled(events + [StreamFailure(info, partial)]);
      && r.content == Some(partial + Texts(events)) && r.finish == ErrorReason
      && r.errorInfo == Some(info) && r.error == Some(info.message) && r.toolCalls == [] && r.usage == NO_USAGE
      && r.reasoning.None? && r.signature.None?
  {
    FoldUpTo(events, StreamFailure(info, partial));
  }

  /** A stream that ends without a terminal event is a timeout to be retried, with
      what arrived. */
  lemma UnterminatedResponse(events: seq<Event>)
    requires events == [] || !Terminal(events[|events| - 1])
    ensures var r := Assembled(events);
      && r.content == Some(Texts(events)) && r.finish == ErrorReason && r.toolCalls == []
      && r.errorInfo == Some(ErrorInfo(Timeout, EOF_WITHOUT_TERMINAL, true)) && r.error == Some(EOF_WITHOUT_TERMINAL)
      && r.usage == NO_USAGE && r.reasoning.None? && r.signature.None?
  {
    FoldFromEmpty(events);
    TimedOut(Fold(EMPTY, events));
    assert Assembled(events) == Assemble(Fold(EMPTY, events), None);
  }

  lemma TimedOut(acc: Acc)
    ensures var r := Assemble(acc, None);
      && r.content == Some(acc.text) && r.finish == ErrorReason && r.toolCalls == []
      && r.errorInfo == Some(ErrorInfo(Timeout, EOF_WITHOUT_TERMINAL, true)) && r.error == Some(EOF_WITHOUT_TERMINAL)
      && r.usage == NO_USAGE && r.reasoning.None? && r.signature.None?
  {
  }

  // ---- The bridge ----

  datatype Delta = Content(text: string) | Reasoning(text: string)

  // How the wrapped `chat_stream` ends.
  datatype Outcome = Returns(response: Response) | RaisesError(message: string, transient: bool) | IsCancelled

  function ContentOf(deltas: seq<Delta>): string {
    if deltas == [] then "" else (if deltas[0].Content? then deltas[0].text else "") + ContentOf(deltas[1..])
  }

  function ThoughtOf(deltas: seq<Delta>): string {
    if deltas == [] then "" else (if deltas[0].Reasoning? then deltas[0].text else "") + ThoughtOf(deltas[1..])
  }

  function Prefix500(s: string): string { if |s| > 500 then s[..500] else s }

  /** What the tool calls of a response become on the wire. */
  function CallEvents(calls: seq<ToolCall>): seq<Event> {
    if calls == [] then []
    else [ToolCallComplete(OrEmpty(calls[0].callId), calls[0].toolName, calls[0].arguments)] + CallEvents(calls[1..])
  }

  function DeltaEvent(d: Delta): seq<Event> {
    if d.text == "" then [] else if d.Content? then [TextDelta(d.text)] else [ReasoningDelta(d.text)]
  }

  function DeltaEvents(deltas: seq<Delta>): seq<Event> {
    if deltas == [] then [] else DeltaEvent(deltas[0]) + DeltaEvents(deltas[1..])
  }

  /** What a response still owes the stream after its callbacks: text and reasoning
      never streamed, the tool calls, and any usage. */
  function OwedText(deltas: seq<Delta>, r: Response): seq<Event> {
    if ContentOf(deltas) == "" && OrEmpty(r.content) != "" then [TextDelta(OrEmpty(r.content))] else []
  }

  function OwedReasoning(deltas: seq<Delta>, r: Response): seq<Event> {
    if ThoughtOf(deltas) == "" && OrEmpty(r.reasoning) != "" then [ReasoningDelta(OrEmpty(r.reasoning))] else []
  }

  function OwedUsage(r: Response): seq<Event> {
    if r.usage != NO_USAGE then [UsageSnapshot(r.usage)] else []
  }

  function Remainder(deltas: seq<Delta>, r: Response): seq<Event> {
    OwedText(deltas, r) + OwedReasoning(deltas, r) + CallEvents(r.toolCalls) + OwedUsage(r)
  }

  function FailureOf(r: Response): Event {
    StreamFailure(
      if r.errorInfo.Some? then r.errorInfo.value
      else
        var message := if OrEmpty(r.error) != "" then OrEmpty(r.error) else "LLM stream failed";
        ErrorInfo(Unknown, Prefix500(message), false),
      "")
  }

  function LastEvent(outcome: Outcome): Event {
    match outcome
    case Returns(r) => if r.finish == ErrorReason then FailureOf(r) else Finish(r.finish, None)
    case RaisesError(message, transient) => StreamFailure(ErrorInfo(Unknown, Prefix500(message), transient), "")
    case IsCancelled => Finish(Cancelled, None)
  }

  /** The whole stream of a bridged call. */
  function Bridged(deltas: seq<Delta>, outcome: Outcome): seq<Event> {
    DeltaEvents(deltas) + (if outcome.Returns? then Remainder(deltas, outcome.response) else []) + [LastEvent(outcome)]
  }

  method StreamDeltas(deltas: seq<Delta>) returns (queue: seq<Event>, streamedText: bool, streamedReasoning: bool)
    ensures queue == DeltaEvents(deltas)
    ensures streamedText <==> ContentOf(deltas) != ""
    ensures streamedReasoning <==> ThoughtOf(deltas) != ""
  {
    queue, streamedText, streamedReasoning := [], false, false;
    assert deltas[0..] == deltas;
    for i := 0 to |deltas|
      invariant queue + DeltaEvents(deltas[i..]) == DeltaEvents(deltas)
      invariant if streamedText then ContentOf(deltas) != "" else ContentOf(deltas[i..]) == ContentOf(deltas)
      invariant if streamedReasoning then ThoughtOf(deltas) != "" else ThoughtOf(deltas[i..]) == ThoughtOf(deltas)
    {
      DeltaStep(deltas, i, queue);
      match deltas[i] {
        case Content(text) =>
          if text != "" {
            streamedText := true;
            queue := queue + [TextDelta(text)];
          }
        case Reasoning(text) =>
          if text != "" {
            streamedReasoning := true;
            queue := queue + [ReasoningDelta(text)];
          }
      }
    }
  }

  lemma DeltaStep(deltas: seq<Delta>, i: nat, queue: seq<Event>)
    requires i < |deltas|
    ensures queue + DeltaEvents(deltas[i..]) == queue + DeltaEvent(deltas[i]) + DeltaEvents(deltas[i + 1..])
    ensures ContentOf(deltas[i..]) == (if deltas[i].Content? then deltas[i].text else "") + ContentOf(deltas[i + 1..])
    ensures ThoughtOf(deltas[i..]) == (if deltas[i].Reasoning? then deltas[i].text else "") + ThoughtOf(deltas[i + 1..])
    ensures deltas[i].text == "" ==> queue + DeltaEvent(deltas[i]) == queue
  {
    assert deltas[i..][1..] == deltas[i + 1..];
  }

  method PutCalls(before: seq<Event>, calls: seq<ToolCall>) returns (queue: seq<Event>)
    ensures queue == before + CallEvents(calls)
  {
    queue := before;
    assert calls[0..] == calls;
    for i := 0 to |calls|
      invariant queue + CallEvents(calls[i..]) == before + CallEvents(calls)
    {
      assert calls[i..][1..] == calls[i + 1..];
      queue := queue + [ToolCallComplete(OrEmpty(calls[i].callId), calls[i].toolName, calls[i].arguments)];
    }
  }

  /** What `_run` puts on the queue after `chat_stream` has returned. */
  method PutRemainder(before: seq<Event>, streamedText: bool, streamedReasoning: bool, response: Response,
                      ghost deltas: seq<Delta>)
    returns (queue: seq<Event>)
    requires streamedText <==> ContentOf(deltas) != ""
    requires streamedReasoning <==> ThoughtOf(deltas) != ""
    ensures queue == before + Remainder(deltas, response)
  {
    var content, reasoning := OrEmpty(response.content), OrEmpty(response.reasoning);
    queue := before + (if !streamedText && content != "" then [TextDelta(content)] else []);
    queue := queue + (if !streamedReasoning && reasoning != "" then [ReasoningDelta(reasoning)] else []);
    queue := PutCalls(queue, response.toolCalls);
    queue := queue + (if response.usage != NO_USAGE then [UsageSnapshot(response.usage)] else []);
    Regroup(before, OwedText(deltas, response), OwedReasoning(deltas, response),
            CallEvents(response.toolCalls), OwedUsage(response));
  }

  lemma Regroup<T>(z: seq<T>, a: seq<T>, b: seq<T>, c: seq<T>, d: seq<T>)
    ensures z + a + b + c + d == z + (a + b + c + d)
  {
  }

  method Stream(deltas: seq<Delta>, outcome: Outcome) returns (queue: seq<Event>)
    ensures queue == Bridged(deltas, outcome)
  {
    var streamedText, streamedReasoning;
    queue, streamedText, streamedReasoning := StreamDeltas(deltas);
    if outcome.Returns? {
      queue := PutRemainder(queue, streamedText, streamedReasoning, outcome.response, deltas);
    }
    assert outcome.Returns? || queue + [] == queue;
    queue := queue + [LastEvent(outcome)];
  }

  // ---- Round trip ----

  /** An accumulator with text and reasoning added. */
  function Plus(acc: Acc, text: string, reasoning: string): Acc {
    acc.(text := acc.text + text, reasoning := acc.reasoning + reasoning)
  }

  lemma DeltaEventFold(acc: Acc, d: Delta)
    ensures Fold(acc, DeltaEvent(d))
         == Plus(acc, if d.Content? then d.text else "", if d.Reasoning? then d.text else "")
  {
    assert acc.text + "" == acc.text && acc.reasoning + "" == acc.reasoning;
    if d.text != "" {
      FoldOne(acc, DeltaEvent(d)[0]);
    }
  }

  lemma {:induction false} DeltaFold(acc: Acc, deltas: seq<Delta>)
    ensures Fold(acc, DeltaEvents(deltas)) == Plus(acc, ContentOf(deltas), ThoughtOf(deltas))
    decreases |deltas|
  {
    if deltas == [] {
      assert acc.text + "" == acc.text && acc.reasoning + "" == acc.reasoning;
    } else {
      var d := deltas[0];
      var text, thought := if d.Content? then d.text else "", if d.Reasoning? then d.text else "";
      FoldAppend(acc, DeltaEvent(d), DeltaEvents(deltas[1..]));
      DeltaEventFold(acc, d);
      DeltaFold(Plus(acc, text, thought), deltas[1..]);
    }
  }

  /** The calls as they come back: a missing call id has become the empty one. */
  function WithId(c: ToolCall): ToolCall {
    ToolCall(Some(OrEmpty(c.callId)), c.toolName, c.arguments)
  }

  function WithIds(calls: seq<ToolCall>): seq<ToolCall> {
    if calls == [] then [] else [WithId(calls[0])] + WithIds(calls[1..])
  }

  lemma {:induction false} CallFold(acc: Acc, calls: seq<ToolCall>)
    ensures Fold(acc, CallEvents(calls)) == acc.(calls := acc.calls + WithIds(calls))
    decreases |calls|
  {
    if calls == [] {
      assert acc.calls + [] == acc.calls;
    } else {
      var e := ToolCallComplete(OrEmpty(calls[0].callId), calls[0].toolName, calls[0].arguments);
      var next := acc.(calls := acc.calls + [WithId(calls[0])]);
      assert Absorb(acc, e) == next;
      CallFold(next, calls[1..]);
      assert next.calls + WithIds(calls[1..]) == acc.calls + ([WithId(calls[0])] + WithIds(calls[1..]));
    }
  }

  /** The same calls in the same order, a missing call id made empty. */
  ghost predicate SameCalls(back: seq<ToolCall>, calls: seq<ToolCall>) {
    && |back| == |calls|
    && forall i :: 0 <= i < |calls| ==>
         && back[i].toolName == calls[i].toolName && back[i].arguments == calls[i].arguments
         && back[i].callId == if calls[i].callId.None? then Some("") else calls[i].callId
  }

  lemma {:induction false} CallsComeBack(calls: seq<ToolCall>)
    ensures SameCalls(WithIds(calls), calls)
  {
    if calls != [] {
      CallsComeBack(calls[1..]);
      assert forall i :: 0 < i < |calls| ==>
        WithIds(calls)[i] == WithIds(calls[1..])[i - 1] && calls[i] == calls[1..][i - 1];
    }
  }

  /** What folding a whole bridged response accumulates. */
  lemma BridgeFold(deltas: seq<Delta>, r: Response)
    ensures Fold(EMPTY, Bridged(deltas, Returns(r))) == Acc(
      if ContentOf(deltas) == "" then OrEmpty(r.content) else ContentOf(deltas),
      if ThoughtOf(deltas) == "" then OrEmpty(r.reasoning) else ThoughtOf(deltas),
      WithIds(r.toolCalls), r.usage)
  {
    StreamedFold(deltas);
    RemainderFold(deltas, r, Fold(EMPTY, DeltaEvents(deltas)));
    FoldAppend(EMPTY, DeltaEvents(deltas), Remainder(deltas, r));
    FoldSnoc(EMPTY, DeltaEvents(deltas) + Remainder(deltas, r), LastEvent(Returns(r)));
  }

  lemma StreamedFold(deltas: seq<Delta>)
    ensures Fold(EMPTY, DeltaEvents(deltas)) == EMPTY.(text := ContentOf(deltas), reasoning := ThoughtOf(deltas))
  {
    DeltaFold(EMPTY, deltas);
    Grouped(ContentOf(deltas), "", "");
    Grouped(ThoughtOf(deltas), "", "");
  }

  lemma RemainderFold(deltas: seq<Delta>, r: Response, acc: Acc)
    requires acc == EMPTY.(text := ContentOf(deltas), reasoning := ThoughtOf(deltas))
    ensures Fold(acc, Remainder(deltas, r)) == Acc(
      if ContentOf(deltas) == "" then OrEmpty(r.content) else ContentOf(deltas),
      if ThoughtOf(deltas) == "" then OrEmpty(r.reasoning) else ThoughtOf(deltas),
      WithIds(r.toolCalls), r.usage)
  {
    var a, b, c, d := OwedText(deltas, r), OwedReasoning(deltas, r), CallEvents(r.toolCalls), OwedUsage(r);
    FoldAppend(acc, a + b + c, d);
    FoldAppend(acc, a + b, c);
    FoldAppend(acc, a, b);
    var acc1 := acc.(text := if ContentOf(deltas) == "" then OrEmpty(r.content) else ContentOf(deltas));
    FoldOne(acc, TextDelta(OrEmpty(r.content)));
    assert "" + OrEmpty(r.content) == OrEmpty(r.content) && "" + OrEmpty(r.reasoning) == OrEmpty(r.reasoning);
    assert Fold(acc, a) == acc1;
    FoldOne(acc1, ReasoningDelta(OrEmpty(r.reasoning)));
    var acc2 := Fold(acc1, b);
    CallFold(acc2, r.toolCalls);
    assert [] + WithIds(r.toolCalls) == WithIds(r.toolCalls);
    FoldOne(Fold(acc2, c), UsageSnapshot(r.usage));
  }

  lemma {:induction false} CallsNotTerminal(calls: seq<ToolCall>, e: Event)
    requires e in CallEvents(calls)
    ensures !Terminal(e)
  {
    if e in CallEvents(calls[1..]) {
      CallsNotTerminal(calls[1..], e);
    }
  }

  lemma {:induction false} DeltasNotTerminal(deltas: seq<Delta>, e: Event)
    requires e in DeltaEvents(deltas)
    ensures !Terminal(e)
  {
    if e in DeltaEvents(deltas[1..]) {
      DeltasNotTerminal(deltas[1..], e);
    }
  }

  lemma RemainderNotTerminal(deltas: seq<Delta>, r: Response, e: Event)
    requires e in Remainder(deltas, r)
    ensures !Terminal(e)
  {
    if e in CallEvents(r.toolCalls) {
      CallsNotTerminal(r.toolCalls, e);
    }
  }

  /** For every way `chat_stream` ends the stream has exactly one terminal event, in
      last place. */
  lemma BridgeTerminates(deltas: seq<Delta>, outcome: Outcome)
    ensures WellTerminated(Bridged(deltas, outcome))
  {
    var body := DeltaEvents(deltas) + (if outcome.Returns? then Remainder(deltas, outcome.response) else []);
    forall e | e in body
      ensures !Terminal(e)
    {
      if e in DeltaEvents(deltas) {
        DeltasNotTerminal(deltas, e);
      } else {
        RemainderNotTerminal(deltas, outcome.response, e);
      }
    }
    AppendTerminal(body, LastEvent(outcome));
  }

  lemma AppendTerminal(body: seq<Event>, last: Event)
    requires Terminal(last) && forall e :: e in body ==> !Terminal(e)
    ensures WellTerminated(body + [last])
  {
  }

  /** Round trip of a response that is not an error: tool calls, usage and finish
      reason always come back; content and reasoning come back, up to none versus
      empty, exactly when the deltas were absent or concatenate to them. */
  lemma RoundTrip(deltas: seq<Delta>, r: Response)
    requires r.finish != ErrorReason
    ensures var back := Assembled(Bridged(deltas, Returns(r)));
      && SameCalls(back.toolCalls, r.toolCalls) && back.usage == r.usage && back.finish == r.finish
      && back.error.None? && back.errorInfo.None?
      && (OrEmpty(back.content) == OrEmpty(r.content) <==> ContentOf(deltas) in {"", OrEmpty(r.content)})
      && (OrEmpty(back.reasoning) == OrEmpty(r.reasoning) <==> ThoughtOf(deltas) in {"", OrEmpty(r.reasoning)})
  {
    BridgeFold(deltas, r);
    CallsComeBack(r.toolCalls);
  }

  /** The text, or its first 500 characters when it is longer. */
  predicate IsStartOf(start: string, text: string) {
    start <= text && |start| == if |text| < 500 then |text| else 500
  }

  lemma ErrorAssembled(deltas: seq<Delta>, r: Response)
    requires r.finish == ErrorReason
    ensures var back := Assembled(Bridged(deltas, Returns(r)));
      && back.finish == ErrorReason
      && back.errorInfo == Some(FailureOf(r).info) && back.error == Some(FailureOf(r).info.message)
      && OrEmpty(back.content) == (if ContentOf(deltas) == "" then OrEmpty(r.content) else ContentOf(deltas))
      && back.toolCalls == [] && back.usage == NO_USAGE
  {
    BridgeFold(deltas, r);
    Grouped(Fold(EMPTY, Bridged(deltas, Returns(r))).text, "", "");
  }

  /** The error information a response stands for: its own when it has one, else an unknown
      error with the start of its message, or of the standard one, not to be retried. */
  predicate Describes(info: ErrorInfo, r: Response) {
    if r.errorInfo.Some? then info == r.errorInfo.value
    else
      && info.kind == Unknown && !info.shouldRetry
      && IsStartOf(info.message, if r.error in {None, Some("")} then "LLM stream failed" else r.error.value)
  }

  lemma FailureDescribes(r: Response)
    ensures Describes(FailureOf(r).info, r)
  {
  }

  /** An error response comes back as an error with its delivered text, message and
      error information. */
  lemma ErrorRoundTrip(deltas: seq<Delta>, r: Response)
    requires r.finish == ErrorReason
    ensures var back := Assembled(Bridged(deltas, Returns(r)));
      && back.finish == ErrorReason
      && back.errorInfo.Some? && Describes(back.errorInfo.value, r) && back.error == Some(back.errorInfo.value.message)
      && OrEmpty(back.content) == (if ContentOf(deltas) == "" then OrEmpty(r.content) else ContentOf(deltas))
      && back.toolCalls == [] && back.usage == NO_USAGE
  {
    ErrorAssembled(deltas, r);
    FailureDescribes(r);
  }

  /** A call that raises or is cancelled comes back with all that was streamed: as an
      error with its message, cut to 500 characters, or as cancelled. */
  lemma BrokenOffRoundTrip(deltas: seq<Delta>, outcome: Outcome)
    requires !outcome.Returns?
    ensures var back := Assembled(Bridged(deltas, outcome));
      && OrEmpty(back.content) == ContentOf(deltas) && back.toolCalls == [] && back.usage == NO_USAGE
      && (outcome.IsCancelled? ==>
            back.finish == Cancelled && OrEmpty(back.reasoning) == ThoughtOf(deltas) && back.errorInfo.None?)
      && (outcome.RaisesError? ==>
            && back.finish == ErrorReason && back.error.Some? && IsStartOf(back.error.value, outcome.message)
            && back.errorInfo == Some(ErrorInfo(Unknown, back.error.value, outcome.transient)))
  {
    var s := Bridged(deltas, outcome);
    Grouped(DeltaEvents(deltas), [], []);
    assert s == DeltaEvents(deltas) + [LastEvent(outcome)];
    StreamedFold(deltas);
    FoldSnoc(EMPTY, DeltaEvents(deltas), LastEvent(outcome));
    assert s[|s| - 1] == LastEvent(outcome);
  }

  /** Content deltas come back as content, reasoning deltas as reasoning. */
  lemma DeltasComeBack(content: string, thought: string)
    ensures var back := Assembled(Bridged([Content(content), Reasoning(thought)], IsCancelled));
      OrEmpty(back.content) == content && OrEmpty(back.reasoning) == thought
  {
    var deltas := [Content(content), Reasoning(thought)];
    BrokenOffRoundTrip(deltas, IsCancelled);
    assert deltas[1..] == [Reasoning(thought)] && deltas[1..][1..] == [];
    Grouped(content, "", "");
    Grouped(thought, "", "");
    assert ContentOf(deltas[1..]) == "" + ContentOf(deltas[1..][1..]);
    assert ThoughtOf(deltas[1..]) == thought + ThoughtOf(deltas[1..][1..]);
  }

  /** `LLMProvider.chat_stream`: feed every event of a stream to a fresh assembler.
      It raises exactly when an event follows a terminal one. */
  method FoldStream(events: seq<Event>) returns (response: Option<Response>)
    ensures response.None? <==> exists i :: 0 <= i < |events| - 1 && Terminal(events[i])
    ensures response.Some? ==> response.value == Assembled(events)
  {
    var assembler := new EventAssembler();
    for i := 0 to |events|
      invariant fresh(assembler) && assembler.Valid() && assembler.fed == events[..i]
      invariant assembler.closed <==> i > 0 && Terminal(events[i - 1])
      invariant forall k :: 0 <= k < i - 1 ==> !Terminal(events[k])
    {
      var accepted := assembler.Feed(events[i]);
      if !accepted {
        return None;
      }
      assert events[..i + 1] == events[..i] + [events[i]];
    }
    assert events[..|events|] == events;
    var result := assembler.Result();
    response := Some(result);
  }

  // ---- Retry ----

  // One attempt: a response, an exception (transient or not), or a cancellation.
  datatype Attempt = Answers(response: Response) | Throws(transient: bool) | Interrupted

  // How the executor ends: at attempt `at` with that attempt's own outcome, or with
  // the synthetic response when it made none.
  datatype RetryEnd = EndedAt(at: nat) | NeverTried | NoBackoff

  predicate Retries(a: Attempt) {
    match a
    case Answers(r) => r.finish == ErrorReason && r.errorInfo.Some? && r.errorInfo.value.shouldRetry
    case Throws(transient) => transient
    case Interrupted => false
  }

  /** The attempt the executor would see without the bridge. */
  function AttemptOf(outcome: Outcome): Attempt {
    match outcome
    case Returns(r) => Answers(r)
    case RaisesError(_, transient) => Throws(transient)
    case IsCancelled => Interrupted
  }

  /** Bridging a call and folding its events back does not change whether it is retried. */
  lemma RetrySurvivesBridge(deltas: seq<Delta>, outcome: Outcome)
    ensures Retries(Answers(Assembled(Bridged(deltas, outcome)))) <==> Retries(AttemptOf(outcome))
  {
    match outcome {
      case Returns(r) =>
        if r.finish == ErrorReason {
          ErrorAssembled(deltas, r);
        } else {
          RoundTrip(deltas, r);
        }
      case _ => BrokenOffRoundTrip(deltas, outcome);
    }
  }

  /** The delay before attempt `i + 1`: the schedule, its last entry repeated. */
  function Backoff(delays: seq<real>, i: nat): real
    requires delays != []
  {
    delays[if i < |delays| then i else |delays| - 1]
  }

  /** Ends at the first attempt that is not to be retried, or at the last one
      allowed, having slept the scheduled delay before each further attempt. */
  method ExecuteWithRetry(attempts: seq<Attempt>, maxRetries: int, delays: seq<real>)
    returns (end: RetryEnd, slept: seq<real>)
    requires |attempts| == if maxRetries < 0 then 0 else maxRetries + 1
    ensures maxRetries < 0 <==> end == NeverTried
    ensures end.EndedAt? ==>
      && end.at <= maxRetries && (end.at == maxRetries || !Retries(attempts[end.at]))
      && (forall i :: 0 <= i < end.at ==> Retries(attempts[i]))
      && |slept| == end.at && (end.at > 0 ==> delays != [])
      && forall i :: 0 <= i < end.at ==>
           slept[i] == if i < |delays| then delays[i] else delays[|delays| - 1]
    ensures end == NoBackoff <==> maxRetries > 0 && delays == [] && Retries(attempts[0])
  {
    slept := [];
    var attempt := 0;
    while attempt <= maxRetries
      invariant 0 <= attempt && (maxRetries >= 0 ==> attempt <= maxRetries)
      invariant maxRetries < 0 ==> attempt == 0
      invariant forall i :: 0 <= i < attempt ==> Retries(attempts[i])
      invariant |slept| == attempt && (attempt > 0 ==> delays != [])
      invariant forall i :: 0 <= i < attempt ==> slept[i] == Backoff(delays, i)
      decreases maxRetries - attempt
    {
      match attempts[attempt] {
        case Interrupted => return EndedAt(attempt), slept;
        case Throws(transient) =>
          if attempt >= maxRetries || !transient { return EndedAt(attempt), slept; }
        case Answers(response) =>
          if response.finish != ErrorReason { return EndedAt(attempt), slept; }
          if attempt >= maxRetries { return EndedAt(attempt), slept; }
          var shouldRetry := if response.errorInfo.Some? then response.errorInfo.value.shouldRetry else false;
          if !shouldRetry { return EndedAt(attempt), slept; }
      }
      if delays == [] { return NoBackoff, slept; }
      slept := slept + [Backoff(delays, attempt)];
      attempt := attempt + 1;
    }
    end := NeverTried;
  }
}
