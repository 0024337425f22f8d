/** Token usage normalised across provider wire formats
    (src/modex_agent/core/llm_struct.py:33-121). */
module TokenUsage {
  import opened Outcomes

  // A value in the raw dictionary; `Text` is anything `int()` refuses.
  datatype Value = Null | Number(n: int) | Details(fields: map<string, Value>) | Text

  type Raw = map<string, Value>

  datatype Usage = Usage(input: int, cacheRead: int, cacheCreation: int, output: int, reasoning: int)

  datatype Failure = Unreadable | Negative

  // A number looked for in the raw dictionary.
  datatype Read = Absent | Found(n: int) | Refused

  function ReadValue(v: Value): Read {
    match v case Null => Absent case Number(n) => Found(n) case _ => Refused
  }

  function ReadInt(raw: Raw, key: string): Read {
    if key in raw then ReadValue(raw[key]) else Absent
  }

  function ReadNested(raw: Raw, parent: string, child: string): Read {
    if parent in raw && raw[parent].Details? then ReadInt(raw[parent].fields, child) else Absent
  }

  function Or(first: Read, second: Read): Read {
    if first.Absent? then second else first
  }

  function OrZero(r: Read): int {
    if r.Found? then r.n else 0
  }

  function Plus(a: Read, b: Read): Read {
    if a.Refused? || b.Refused? then Refused
    else if a.Absent? && b.Absent? then Absent
    else Found(OrZero(a) + OrZero(b))
  }

  function CacheRead(raw: Raw): Read {
    Or(ReadInt(raw, "cache_read_input_tokens"),
       Or(ReadNested(raw, "prompt_tokens_details", "cached_tokens"),
          Or(ReadNested(raw, "input_tokens_details", "cached_tokens"),
             ReadInt(raw, "prompt_cache_hit_tokens"))))
  }

  function CacheCreation(raw: Raw): Read {
    Or(ReadInt(raw, "cache_creation_input_tokens"),
       Plus(ReadNested(raw, "cache_creation", "ephemeral_5m_input_tokens"),
            ReadNested(raw, "cache_creation", "ephemeral_1h_input_tokens")))
  }

  function Reasoning(raw: Raw): Read {
    Or(ReadInt(raw, "reasoning_tokens"),
       Or(ReadNested(raw, "completion_tokens_details", "reasoning_tokens"),
          ReadNested(raw, "output_tokens_details", "reasoning_tokens")))
  }

  function Output(raw: Raw): Read {
    Or(ReadInt(raw, "output_tokens"), ReadInt(raw, "completion_tokens"))
  }

  /** The input count on the wire. */
  function WireInput(raw: Raw): Read {
    Or(ReadInt(raw, "input_tokens"), ReadInt(raw, "prompt_tokens"))
  }

  /** Does the input count on the wire include the tokens read from the cache?
      A `prompt_tokens` count does; an `input_tokens` count does when it comes with
      its own cache detail. */
  predicate IncludesCache(raw: Raw) {
    if ReadInt(raw, "input_tokens").Found? then ReadNested(raw, "input_tokens_details", "cached_tokens").Found?
    else ReadInt(raw, "prompt_tokens").Found?
  }

  predicate DetailRefused(raw: Raw) {
    ReadInt(raw, "input_tokens").Found? && ReadNested(raw, "input_tokens_details", "cached_tokens").Refused?
  }

  /** Can every number that is looked at be read? */
  predicate Readable(raw: Raw) {
    && !CacheRead(raw).Refused? && !CacheCreation(raw).Refused? && !Reasoning(raw).Refused? && !Output(raw).Refused?
    && !WireInput(raw).Refused?
    && !DetailRefused(raw)
  }

  function Counted(raw: Raw): Usage {
    Usage(OrZero(WireInput(raw)) - (if IncludesCache(raw) then OrZero(CacheRead(raw)) else 0),
          OrZero(CacheRead(raw)), OrZero(CacheCreation(raw)), OrZero(Output(raw)), OrZero(Reasoning(raw)))
  }

  predicate NonNegative(u: Usage) {
    u.input >= 0 && u.cacheRead >= 0 && u.cacheCreation >= 0 && u.output >= 0 && u.reasoning >= 0
  }

  function Normalized(raw: Raw): Result<Usage, Failure> {
    if !Readable(raw) then Err(Unreadable) else if NonNegative(Counted(raw)) then Ok(Counted(raw)) else Err(Negative)
  }

  method FindCacheRead(raw: Raw) returns (cacheRead: Read)
    ensures cacheRead == CacheRead(raw)
  {
    cacheRead := ReadInt(raw, "cache_read_input_tokens");
    if cacheRead.Absent? {
      cacheRead := ReadNested(raw, "prompt_tokens_details", "cached_tokens");
    }
    if cacheRead.Absent? {
      cacheRead := ReadNested(raw, "input_tokens_details", "cached_tokens");
    }
    if cacheRead.Absent? {
      cacheRead := ReadInt(raw, "prompt_cache_hit_tokens");
    }
  }

  method FindCacheCreation(raw: Raw) returns (cacheCreation: Read)
    ensures cacheCreation == CacheCreation(raw)
  {
    cacheCreation := ReadInt(raw, "cache_creation_input_tokens");
    if cacheCreation.Absent? {
      var ephemeral5m := ReadNested(raw, "cache_creation", "ephemeral_5m_input_tokens");
      var ephemeral1h := ReadNested(raw, "cache_creation", "ephemeral_1h_input_tokens");
      if ephemeral5m.Refused? || ephemeral1h.Refused? {
        cacheCreation := Refused;
      } else if ephemeral5m.Found? || ephemeral1h.Found? {
        cacheCreation := Found(OrZero(ephemeral5m) + OrZero(ephemeral1h));
      }
    }
  }

  method FindReasoning(raw: Raw) returns (reasoning: Read)
    ensures reasoning == Reasoning(raw)
  {
    reasoning := ReadInt(raw, "reasoning_tokens");
    if reasoning.Absent? {
      reasoning := ReadNested(raw, "completion_tokens_details", "reasoning_tokens");
    }
    if reasoning.Absent? {
      reasoning := ReadNested(raw, "output_tokens_details", "reasoning_tokens");
    }
  }

  method FindInput(raw: Raw) returns (totalInput: Read, includesCache: bool)
    ensures totalInput.Refused? <==> WireInput(raw).Refused? || DetailRefused(raw)
    ensures !totalInput.Refused? ==> totalInput == Found(OrZero(WireInput(raw))) && includesCache == IncludesCache(raw)
  {
    totalInput, includesCache := ReadInt(raw, "input_tokens"), false;
    if totalInput.Found? {
      var detail := ReadNested(raw, "input_tokens_details", "cached_tokens");
      if detail.Refused? {
        totalInput := Refused;
      }
      includesCache := detail.Found?;
    } else if totalInput.Absent? {
      var promptTokens := ReadInt(raw, "prompt_tokens");
      totalInput := if promptTokens.Refused? then Refused else Found(OrZero(promptTokens));
      includesCache := promptTokens.Found?;
    }
  }

  /** `_normalize_wire_keys`. */
  method NormalizeWireKeys(raw: Raw) returns (result: Result<Usage, Failure>)
    ensures result == Normalized(raw)
  {
    var cacheRead := FindCacheRead(raw);
    var cacheCreation := FindCacheCreation(raw);
    var reasoning := FindReasoning(raw);
    var output := ReadInt(raw, "output_tokens");
    if output.Absent? {
      output := ReadInt(raw, "completion_tokens");
    }
    var totalInput, includesCache := FindInput(raw);
    if cacheRead.Refused? || cacheCreation.Refused? || reasoning.Refused? || output.Refused? || totalInput.Refused? {
      return Err(Unreadable);
    }
    var input := totalInput.n;
    if cacheRead.Found? && cacheRead.n != 0 && includesCache {
      input := input - cacheRead.n;
    }
    var normalized := Usage(input, OrZero(cacheRead), OrZero(cacheCreation), OrZero(output), OrZero(reasoning));
    result := if NonNegative(normalized) then Ok(normalized) else Err(Negative);
  }

  function TotalTokens(u: Usage): int {
    u.input + u.cacheRead + u.cacheCreation + u.output
  }

  // ---- What normalisation keeps ----

  /** When the wire count includes the cached tokens they are moved, not lost: input
      and cache reads add up to it, and the total to it plus creation and output. */
  lemma ConservesIncludedCache(raw: Raw)
    requires Normalized(raw).Ok? && IncludesCache(raw)
    ensures var u := Normalized(raw).value;
      && u.input + u.cacheRead == WireInput(raw).n
      && TotalTokens(u) == WireInput(raw).n + u.cacheCreation + u.output
  {
    assert WireInput(raw).Found?;
  }

  /** Otherwise the wire count is the input and cache reads come on top. */
  lemma KeepsExclusiveInput(raw: Raw)
    requires Normalized(raw).Ok? && !IncludesCache(raw)
    ensures var u := Normalized(raw).value;
      && u.input == OrZero(WireInput(raw))
      && TotalTokens(u) == OrZero(WireInput(raw)) + u.cacheRead + u.cacheCreation + u.output
  {
  }

  /** A readable dictionary is refused exactly when one of its counts is negative or
      a wire count that includes the cached tokens is smaller than they are. */
  lemma RefusedExactly(raw: Raw)
    requires Readable(raw)
    ensures Normalized(raw).Ok? <==>
      && OrZero(CacheRead(raw)) >= 0 && OrZero(CacheCreation(raw)) >= 0
      && OrZero(Output(raw)) >= 0 && OrZero(Reasoning(raw)) >= 0
      && (if IncludesCache(raw) then OrZero(CacheRead(raw)) <= WireInput(raw).n else OrZero(WireInput(raw)) >= 0)
    ensures Normalized(raw).Ok? ==> NonNegative(Normalized(raw).value)
  {
  }

  // ---- Wire shapes ----

  /** A normalised value as it is written out again, total included. */
  function Dumped(u: Usage): Raw {
    map["input_tokens" := Number(u.input), "cache_read_input_tokens" := Number(u.cacheRead),
        "cache_creation_input_tokens" := Number(u.cacheCreation), "output_tokens" := Number(u.output),
        "reasoning_tokens" := Number(u.reasoning), "total_tokens" := Number(TotalTokens(u))]
  }

  /** Normalising what was already normalised changes nothing. */
  lemma Idempotent(raw: Raw)
    requires Normalized(raw).Ok?
    ensures Normalized(Dumped(Normalized(raw).value)) == Normalized(raw)
  {
    Redumped(Normalized(raw).value);
  }

  lemma Redumped(u: Usage)
    ensures Normalized(Dumped(u)) == if NonNegative(u) then Ok(u) else Err(Negative)
  {
    var raw := Dumped(u);
    assert ReadInt(raw, "input_tokens") == Found(u.input);
    assert ReadInt(raw, "cache_read_input_tokens") == Found(u.cacheRead);
    assert ReadInt(raw, "cache_creation_input_tokens") == Found(u.cacheCreation);
    assert ReadInt(raw, "output_tokens") == Found(u.output) && ReadInt(raw, "reasoning_tokens") == Found(u.reasoning);
    assert "input_tokens_details" !in raw;
  }

  // One call as the three kinds of provider report it.
  function MessagesShape(u: Usage): Raw {
    map["input_tokens" := Number(u.input), "cache_read_input_tokens" := Number(u.cacheRead),
        "cache_creation_input_tokens" := Number(u.cacheCreation), "output_tokens" := Number(u.output),
        "reasoning_tokens" := Number(u.reasoning)]
  }

  function CompletionsShape(u: Usage): Raw {
    map["prompt_tokens" := Number(u.input + u.cacheRead), "completion_tokens" := Number(u.output),
        "prompt_tokens_details" := Details(map["cached_tokens" := Number(u.cacheRead)]),
        "completion_tokens_details" := Details(map["reasoning_tokens" := Number(u.reasoning)])]
  }

  function ResponsesShape(u: Usage): Raw {
    map["input_tokens" := Number(u.input + u.cacheRead), "output_tokens" := Number(u.output),
        "input_tokens_details" := Details(map["cached_tokens" := Number(u.cacheRead)]),
        "output_tokens_details" := Details(map["reasoning_tokens" := Number(u.reasoning)])]
  }

  // Further ways to report cache counts: hits next to the prompt, and creation by lifetime.
  function HitTokensShape(u: Usage): Raw {
    map["prompt_tokens" := Number(u.input + u.cacheRead), "completion_tokens" := Number(u.output),
        "prompt_cache_hit_tokens" := Number(u.cacheRead), "reasoning_tokens" := Number(u.reasoning)]
  }

  function LifetimesShape(u: Usage, fiveMinutes: int): Raw {
    map["input_tokens" := Number(u.input), "cache_read_input_tokens" := Number(u.cacheRead),
        "cache_creation" := Details(map["ephemeral_5m_input_tokens" := Number(fiveMinutes),
                                        "ephemeral_1h_input_tokens" := Number(u.cacheCreation - fiveMinutes)]),
        "output_tokens" := Number(u.output), "reasoning_tokens" := Number(u.reasoning)]
  }

  // One lifetime alone.
  function LifetimeShape(u: Usage, key: string): Raw {
    map["input_tokens" := Number(u.input), "cache_read_input_tokens" := Number(u.cacheRead),
        "cache_creation" := Details(map[key := Number(u.cacheCreation)]),
        "output_tokens" := Number(u.output), "reasoning_tokens" := Number(u.reasoning)]
  }

  /** The same call gives the same value in every shape. */
  lemma ShapesAgree(u: Usage)
    requires NonNegative(u)
    ensures Normalized(MessagesShape(u)) == Ok(u)
    ensures u.cacheCreation == 0 ==> Normalized(CompletionsShape(u)) == Ok(u) && Normalized(ResponsesShape(u)) == Ok(u)
    ensures u.cacheCreation == 0 ==> Normalized(HitTokensShape(u)) == Ok(u)
    ensures forall fiveMinutes :: Normalized(LifetimesShape(u, fiveMinutes)) == Ok(u)
    ensures Normalized(LifetimeShape(u, "ephemeral_5m_input_tokens")) == Ok(u)
    ensures Normalized(LifetimeShape(u, "ephemeral_1h_input_tokens")) == Ok(u)
  {
    MessagesRead(u);
    forall fiveMinutes
      ensures Normalized(LifetimesShape(u, fiveMinutes)) == Ok(u)
    {
      LifetimesRead(u, fiveMinutes);
    }
    LifetimeRead(u, "ephemeral_5m_input_tokens", "ephemeral_1h_input_tokens");
    LifetimeRead(u, "ephemeral_1h_input_tokens", "ephemeral_5m_input_tokens");
    if u.cacheCreation == 0 {
      HitTokensRead(u);
    }
    if u.cacheCreation == 0 {
      CompletionsRead(u);
      ResponsesRead(u);
    }
  }

  lemma HitTokensRead(u: Usage)
    requires u.cacheCreation == 0
    ensures Readable(HitTokensShape(u)) && Counted(HitTokensShape(u)) == u
  {
    var raw := HitTokensShape(u);
    assert "cache_read_input_tokens" !in raw && "cache_creation_input_tokens" !in raw && "cache_creation" !in raw;
    assert "prompt_tokens_details" !in raw && "input_tokens_details" !in raw && "input_tokens" !in raw;
    assert "output_tokens" !in raw;
    assert ReadInt(raw, "prompt_cache_hit_tokens") == Found(u.cacheRead);
    assert ReadInt(raw, "reasoning_tokens") == Found(u.reasoning);
  }

  lemma LifetimesRead(u: Usage, fiveMinutes: int)
    ensures Readable(LifetimesShape(u, fiveMinutes)) && Counted(LifetimesShape(u, fiveMinutes)) == u
  {
    var raw := LifetimesShape(u, fiveMinutes);
    assert "cache_creation_input_tokens" !in raw && "input_tokens_details" !in raw;
    assert ReadInt(raw, "input_tokens") == Found(u.input);
    assert ReadInt(raw, "cache_read_input_tokens") == Found(u.cacheRead);
    assert ReadNested(raw, "cache_creation", "ephemeral_5m_input_tokens") == Found(fiveMinutes);
    assert ReadNested(raw, "cache_creation", "ephemeral_1h_input_tokens") == Found(u.cacheCreation - fiveMinutes);
    assert ReadInt(raw, "output_tokens") == Found(u.output) && ReadInt(raw, "reasoning_tokens") == Found(u.reasoning);
  }

  lemma LifetimeRead(u: Usage, key: string, other: string)
    requires {key, other} == {"ephemeral_5m_input_tokens", "ephemeral_1h_input_tokens"}
    ensures Readable(LifetimeShape(u, key)) && Counted(LifetimeShape(u, key)) == u
  {
    var raw := LifetimeShape(u, key);
    assert "ephemeral_5m_input_tokens"[10] != "ephemeral_1h_input_tokens"[10];
    assert "cache_creation_input_tokens" !in raw && "input_tokens_details" !in raw;
    assert ReadInt(raw, "input_tokens") == Found(u.input);
    assert ReadInt(raw, "cache_read_input_tokens") == Found(u.cacheRead);
    assert ReadNested(raw, "cache_creation", key) == Found(u.cacheCreation);
    assert ReadNested(raw, "cache_creation", other) == Absent;
    assert ReadInt(raw, "output_tokens") == Found(u.output) && ReadInt(raw, "reasoning_tokens") == Found(u.reasoning);
  }

  /** The normalised names win over every provider's own, wherever both are present. */
  lemma NormalisedNamesWin(raw: Raw, n: int)
    requires Normalized(raw).Ok?
    ensures var u := Normalized(raw).value;
      && (Says(raw, "cache_read_input_tokens", n) ==> u.cacheRead == n)
      && (Says(raw, "cache_creation_input_tokens", n) ==> u.cacheCreation == n)
      && (Says(raw, "output_tokens", n) ==> u.output == n)
      && (Says(raw, "reasoning_tokens", n) ==> u.reasoning == n)
      && (Says(raw, "input_tokens", n) ==> u.input in {n, n - u.cacheRead})
  {
  }

  /** A value where a number belongs that is not one. */
  predicate NotANumber(fields: map<string, Value>, key: string) {
    key in fields && (fields[key].Text? || fields[key].Details?)
  }

  predicate BadDetail(raw: Raw, parent: string, child: string) {
    parent in raw && raw[parent].Details? && NotANumber(raw[parent].fields, child)
  }

  const NORMALISED_NAMES := {"input_tokens", "cache_read_input_tokens", "cache_creation_input_tokens",
                             "output_tokens", "reasoning_tokens"}

  /** Such a value is looked at: under a normalised name always, under another one when no
      earlier name is there, and the cache detail of an input count always. */
  predicate Misread(raw: Raw) {
    || (exists key :: key in NORMALISED_NAMES && NotANumber(raw, key))
    || ("output_tokens" !in raw && NotANumber(raw, "completion_tokens"))
    || ("input_tokens" !in raw && NotANumber(raw, "prompt_tokens"))
    || ("input_tokens" in raw && raw["input_tokens"].Number?
        && BadDetail(raw, "input_tokens_details", "cached_tokens"))
    || ("cache_creation_input_tokens" !in raw
        && (BadDetail(raw, "cache_creation", "ephemeral_5m_input_tokens")
            || BadDetail(raw, "cache_creation", "ephemeral_1h_input_tokens")))
  }

  lemma NameRefused(raw: Raw, key: string)
    requires key in NORMALISED_NAMES && NotANumber(raw, key)
    ensures !Readable(raw)
  {
    assert ReadInt(raw, key).Refused?;
  }

  lemma OtherNameRefused(raw: Raw)
    requires ("output_tokens" !in raw && NotANumber(raw, "completion_tokens"))
             || ("input_tokens" !in raw && NotANumber(raw, "prompt_tokens"))
    ensures !Readable(raw)
  {
  }

  lemma DetailIsRefused(raw: Raw, parent: string, child: string)
    requires BadDetail(raw, parent, child)
    ensures ReadNested(raw, parent, child).Refused?
  {
  }

  /** It is refused, not taken for a missing one. */
  lemma NotANumberRefused(raw: Raw)
    requires Misread(raw)
    ensures Normalized(raw) == Err(Unreadable)
  {
    if key :| key in NORMALISED_NAMES && NotANumber(raw, key) {
      NameRefused(raw, key);
    } else if ("output_tokens" !in raw && NotANumber(raw, "completion_tokens"))
              || ("input_tokens" !in raw && NotANumber(raw, "prompt_tokens")) {
      OtherNameRefused(raw);
    } else if BadDetail(raw, "cache_creation", "ephemeral_5m_input_tokens") && "cache_creation_input_tokens" !in raw {
      DetailIsRefused(raw, "cache_creation", "ephemeral_5m_input_tokens");
      assert CacheCreation(raw).Refused?;
    } else if BadDetail(raw, "cache_creation", "ephemeral_1h_input_tokens") && "cache_creation_input_tokens" !in raw {
      DetailIsRefused(raw, "cache_creation", "ephemeral_1h_input_tokens");
      assert CacheCreation(raw).Refused?;
    } else {
      DetailIsRefused(raw, "input_tokens_details", "cached_tokens");
      assert DetailRefused(raw);
    }
  }

  predicate Says(raw: Raw, key: string, n: int) {
    key in raw && raw[key] == Number(n)
  }

  lemma MessagesRead(u: Usage)
    ensures Readable(MessagesShape(u)) && Counted(MessagesShape(u)) == u
  {
    var raw := MessagesShape(u);
    assert ReadInt(raw, "input_tokens") == Found(u.input);
    assert ReadInt(raw, "cache_read_input_tokens") == Found(u.cacheRead);
    assert ReadInt(raw, "cache_creation_input_tokens") == Found(u.cacheCreation);
    assert ReadInt(raw, "output_tokens") == Found(u.output) && ReadInt(raw, "reasoning_tokens") == Found(u.reasoning);
    assert "input_tokens_details" !in raw;
  }

  lemma CompletionsRead(u: Usage)
    requires u.cacheCreation == 0
    ensures Readable(CompletionsShape(u)) && Counted(CompletionsShape(u)) == u
  {
    var raw := CompletionsShape(u);
    assert "cache_read_input_tokens" !in raw && "cache_creation_input_tokens" !in raw && "cache_creation" !in raw;
    assert "reasoning_tokens" !in raw && "output_tokens" !in raw && "input_tokens" !in raw;
    assert ReadNested(raw, "prompt_tokens_details", "cached_tokens") == Found(u.cacheRead);
    assert ReadNested(raw, "completion_tokens_details", "reasoning_tokens") == Found(u.reasoning);
  }

  lemma ResponsesRead(u: Usage)
    requires u.cacheCreation == 0
    ensures Readable(ResponsesShape(u)) && Counted(ResponsesShape(u)) == u
  {
    var raw := ResponsesShape(u);
    assert "cache_read_input_tokens" !in raw && "cache_creation_input_tokens" !in raw && "cache_creation" !in raw;
    assert "reasoning_tokens" !in raw && "prompt_tokens_details" !in raw && "completion_tokens_details" !in raw;
    assert ReadNested(raw, "input_tokens_details", "cached_tokens") == Found(u.cacheRead);
    assert ReadNested(raw, "output_tokens_details", "reasoning_tokens") == Found(u.reasoning);
  }
}
