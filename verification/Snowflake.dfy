/** `SnowflakeIdGenerator` (id_generator.py:42-191): 63-bit ids from an arbitrary
    clock.  The clock is a stream of readings in milliseconds; each call takes one
    reading, and a call that exhausts the sequence takes readings until one lies
    past the current millisecond. */
module Snowflake {
  import opened Outcomes
  import opened Bits

  const MAX_TIMESTAMP: nat := 0x1FF_FFFF_FFFF  // 2^41 - 1
  const MAX_WORKER: nat := 31                  // five bits, machine and datacenter alike
  const MAX_SEQUENCE: nat := 4095              // twelve bits
  const EPOCH: int := 1_704_067_200_000

  function Clamp(value: int, maxValue: nat): (r: nat)
    ensures r <= maxValue
  {
    (if value < 0 then -value else value) % (maxValue + 1)
  }

  /** The timestamp field: the distance to the epoch, held inside 41 bits. */
  function Delta(ms: int): (d: nat)
    ensures d <= MAX_TIMESTAMP
  {
    if ms - EPOCH < 0 then 0 else if ms - EPOCH > MAX_TIMESTAMP then MAX_TIMESTAMP else ms - EPOCH
  }

  /** A worker field is taken as given when it fits and folded into its range otherwise,
      the sign dropped. */
  lemma ClampExact(value: int, maxValue: nat)
    ensures 0 <= value <= maxValue ==> Clamp(value, maxValue) == value
    ensures Clamp(-value, maxValue) == Clamp(value, maxValue)
    ensures value >= 0 ==> Clamp(value + (maxValue + 1), maxValue) == Clamp(value, maxValue)
  {
    if value >= 0 {
      OneTurnMore(value, maxValue + 1);
    }
  }

  lemma OneTurnMore(value: nat, d: nat)
    requires d > 0
    ensures (value + d) % d == value % d
    ensures value < d ==> value % d == value
  {
    var q, r := value / d, value % d;
    assert value == q * d + r;
    assert value + d == (q + 1) * d + r;
    Remainder(value + d, d, q + 1, r);
  }

  predicate InRange(ms: int) {
    EPOCH <= ms <= EPOCH + MAX_TIMESTAMP
  }

  function Compose(ms: int, datacenter: nat, machine: nat, sequence: nat): nat {
    BitOr(Shl(Delta(ms), 22), BitOr(Shl(datacenter, 17), BitOr(Shl(machine, 12), sequence)))
  }

  /** The four fields side by side. */
  function Sum(d: nat, datacenter: nat, machine: nat, sequence: nat): nat {
    d * 4194304 + datacenter * 131072 + machine * 4096 + sequence
  }

  lemma ComposeIsSum(ms: int, datacenter: nat, machine: nat, sequence: nat)
    requires datacenter <= MAX_WORKER && machine <= MAX_WORKER && sequence <= MAX_SEQUENCE
    ensures Compose(ms, datacenter, machine, sequence)
         == Sum(Delta(ms), datacenter, machine, sequence)
  {
    Pow2Values();
    OrIsSum(machine, 12, sequence);
    OrIsSum(datacenter, 17, Shl(machine, 12) + sequence);
    OrIsSum(Delta(ms), 22, Shl(datacenter, 17) + Shl(machine, 12) + sequence);
  }

  /** Every id is a non-negative 63-bit number; shifting and masking give back all
      four fields. */
  lemma FieldsRecovered(ms: int, datacenter: nat, machine: nat, sequence: nat)
    requires datacenter <= MAX_WORKER && machine <= MAX_WORKER && sequence <= MAX_SEQUENCE
    ensures var id := Compose(ms, datacenter, machine, sequence);
      && id < Pow2(63)
      && Shr(id, 22) == Delta(ms)
      && BitAnd(Shr(id, 17), MAX_WORKER) == datacenter
      && BitAnd(Shr(id, 12), MAX_WORKER) == machine
      && BitAnd(id, MAX_SEQUENCE) == sequence
  {
    var d := Delta(ms);
    ComposeIsSum(ms, datacenter, machine, sequence);
    Pow2Values();
    UpperFields(d, datacenter, machine, sequence);
    LowerFields(d, datacenter, machine, sequence);
  }

  lemma UpperFields(d: nat, datacenter: nat, machine: nat, sequence: nat)
    requires datacenter <= MAX_WORKER && machine <= MAX_WORKER && sequence <= MAX_SEQUENCE
    ensures Shr(Sum(d, datacenter, machine, sequence), 22) == d
    ensures BitAnd(Shr(Sum(d, datacenter, machine, sequence), 17), MAX_WORKER) == datacenter
  {
    var id := Sum(d, datacenter, machine, sequence);
    Shifted(id, 22, 4194304, d, datacenter * 131072 + machine * 4096 + sequence);
    Shifted(id, 17, 131072, d * 32 + datacenter, machine * 4096 + sequence);
    MaskedWorker(d, datacenter);
  }

  lemma LowerFields(d: nat, datacenter: nat, machine: nat, sequence: nat)
    requires datacenter <= MAX_WORKER && machine <= MAX_WORKER && sequence <= MAX_SEQUENCE
    ensures BitAnd(Shr(Sum(d, datacenter, machine, sequence), 12), MAX_WORKER) == machine
    ensures BitAnd(Sum(d, datacenter, machine, sequence), MAX_SEQUENCE) == sequence
  {
    var id := Sum(d, datacenter, machine, sequence);
    Shifted(id, 12, 4096, d * 1024 + datacenter * 32 + machine, sequence);
    MaskedWorker(d * 32 + datacenter, machine);
    MaskedSequence(id);
    Remainder(id, 4096, d * 1024 + datacenter * 32 + machine, sequence);
  }

  lemma Shifted(id: nat, k: nat, power: nat, quotient: nat, rest: nat)
    requires (k, power) in {(22, 4194304), (17, 131072), (12, 4096)}
    requires rest < power && id == quotient * power + rest
    ensures Shr(id, k) == quotient
  {
    Pow2Values();
    ShrIsDiv(id, k);
    Remainder(id, power, quotient, rest);
  }

  lemma MaskedWorker(above: nat, field: nat)
    requires field <= MAX_WORKER
    ensures BitAnd(above * 32 + field, MAX_WORKER) == field
  {
    AndIsModOf(above * 32 + field, 5, 32);
    Remainder(above * 32 + field, 32, above, field);
  }

  /** The mask wraps the sequence at 4096. */
  lemma MaskedSequence(n: nat)
    ensures BitAnd(n, MAX_SEQUENCE) == n % 4096
  {
    AndIsModOf(n, 12, 4096);
  }

  /** Generators with different worker fields never produce the same id. */
  lemma WorkersNeverCollide(ms: int, dc: nat, machine: nat, seq0: nat, ms': int, dc': nat, machine': nat, seq1: nat)
    requires dc <= MAX_WORKER && machine <= MAX_WORKER && seq0 <= MAX_SEQUENCE
    requires dc' <= MAX_WORKER && machine' <= MAX_WORKER && seq1 <= MAX_SEQUENCE
    requires dc != dc' || machine != machine'
    ensures Compose(ms, dc, machine, seq0) != Compose(ms', dc', machine', seq1)
  {
    FieldsRecovered(ms, dc, machine, seq0);
    FieldsRecovered(ms', dc', machine', seq1);
  }

  // ---- The state machine ----

  /** `_last_timestamp_ms` and `_sequence`. */
  datatype State = State(last: int, sequence: nat)

  const INITIAL := State(-1, 0)

  /** The first reading past `ms`; none when the stream ends while spinning. */
  function NextPast(clock: seq<int>, ms: int): (r: Option<nat>)
    ensures r.Some? ==> r.value < |clock| && clock[r.value] > ms && forall k :: 0 <= k < r.value ==> clock[k] <= ms
    ensures r.None? ==> forall k :: 0 <= k < |clock| ==> clock[k] <= ms
  {
    if clock == [] then None
    else if clock[0] > ms then Some(0)
    else
      var rest := NextPast(clock[1..], ms);
      assert forall k :: 1 <= k < |clock| ==> clock[k] == clock[1..][k - 1];
      if rest.Some? then Some(rest.value + 1) else None
  }

  /** One call: the new state and how many readings it took, or nothing while the
      call spins on a clock that does not pass the current millisecond. */
  function Step(s: State, clock: seq<int>): Option<(State, nat)>
    requires clock != []
  {
    var now := clock[0];
    if now < s.last then Some((State(s.last + 1, s.sequence), 1))
    else if now == s.last then
      var sequence := (s.sequence + 1) % (MAX_SEQUENCE + 1);
      if sequence != 0 then Some((State(now, sequence), 1))
      else
        var past := NextPast(clock[1..], now);
        if past.None? then None else Some((State(clock[1..][past.value], 0), past.value + 2))
    else Some((State(now, 0), 1))
  }

  /** The call spun over `n` readings, the last of them the first past the millisecond. */
  predicate SpunTo(clock: seq<int>, ms: int, n: nat) {
    1 < n <= |clock| && clock[n - 1] > ms && forall k :: 0 <= k < n - 1 ==> clock[k] <= ms
  }

  /** What a call makes of its readings: a later millisecond starts its sequence anew; an
      earlier one is replaced by the next after the last; the same one takes the next
      number, and when these are used up the first later reading, if there is one. */
  lemma StepMeans(s: State, clock: seq<int>, n: nat)
    requires clock != [] && SequenceFits(s)
    ensures clock[0] > s.last ==> Step(s, clock) == Some((State(clock[0], 0), 1))
    ensures clock[0] < s.last ==> Step(s, clock) == Some((State(s.last + 1, s.sequence), 1))
    ensures clock[0] == s.last && s.sequence < 4095 ==> Step(s, clock) == Some((State(s.last, s.sequence + 1), 1))
    ensures clock[0] == s.last && s.sequence == 4095 && SpunTo(clock, s.last, n) ==>
      Step(s, clock) == Some((State(clock[n - 1], 0), n))
    ensures clock[0] == s.last && s.sequence == 4095 ==>
      (Step(s, clock).None? <==> forall k :: 0 <= k < |clock| ==> clock[k] <= s.last)
  {
    var past := NextPast(clock[1..], s.last);
    assert forall k :: 1 <= k < |clock| ==> clock[k] == clock[1..][k - 1];
    if past.Some? && SpunTo(clock, s.last, n) {
      assert clock[past.value + 1] > s.last;
      assert past.value + 1 == n - 1;
    }
  }

  predicate SequenceFits(s: State) { s.sequence <= MAX_SEQUENCE }

  /** (timestamp, sequence) grows lexicographically on every call, whatever the
      clock reads. */
  predicate Before(s: State, s': State) {
    s.last < s'.last || (s.last == s'.last && s.sequence < s'.sequence)
  }

  lemma StepAdvances(s: State, clock: seq<int>)
    requires SequenceFits(s) && clock != [] && Step(s, clock).Some?
    ensures SequenceFits(Step(s, clock).value.0) && Before(s, Step(s, clock).value.0)
    ensures 1 <= Step(s, clock).value.1 <= |clock|
  {
  }

  function IdOf(s: State, datacenter: nat, machine: nat): nat {
    Compose(s.last, datacenter, machine, s.sequence)
  }

  /** A later state gives a greater id exactly when the 41-bit field can tell the
      two timestamps apart or the sequence grew. */
  lemma GreaterIdExact(s: State, s': State, datacenter: nat, machine: nat)
    requires SequenceFits(s) && SequenceFits(s') && Before(s, s')
    requires datacenter <= MAX_WORKER && machine <= MAX_WORKER
    ensures IdOf(s, datacenter, machine) < IdOf(s', datacenter, machine)
       <==> s.sequence < s'.sequence || (s'.last > EPOCH && s.last < EPOCH + MAX_TIMESTAMP)
  {
    ComposeIsSum(s.last, datacenter, machine, s.sequence);
    ComposeIsSum(s'.last, datacenter, machine, s'.sequence);
  }

  /** The documented strict growth fails outside the 41-bit range: on every clock
      before the epoch, consecutive milliseconds share one id. */
  lemma NotMonotoneBeforeEpoch(ms: int, datacenter: nat, machine: nat)
    requires ms < EPOCH && datacenter <= MAX_WORKER && machine <= MAX_WORKER
    ensures Step(State(ms, 0), [ms + 1]) == Some((State(ms + 1, 0), 1))
    ensures IdOf(State(ms + 1, 0), datacenter, machine) == IdOf(State(ms, 0), datacenter, machine)
  {
    ComposeIsSum(ms, datacenter, machine, 0);
    ComposeIsSum(ms + 1, datacenter, machine, 0);
  }

  // ---- Whole runs ----

  /** The states after each call of a run over the whole clock stream. */
  function Run(s: State, clock: seq<int>): seq<State>
    requires SequenceFits(s)
    decreases |clock|
  {
    if clock == [] || Step(s, clock).None? then []
    else
      StepAdvances(s, clock);
      var (s', used) := Step(s, clock).value;
      [s'] + Run(s', clock[used..])
  }

  lemma {:induction false} RunAdvances(s: State, clock: seq<int>, i: nat)
    requires SequenceFits(s) && i < |Run(s, clock)|
    ensures SequenceFits(Run(s, clock)[i]) && Before(s, Run(s, clock)[i])
    ensures s.last <= Run(s, clock)[i].last
    decreases |clock|
  {
    StepAdvances(s, clock);
    if i > 0 {
      var (s', used) := Step(s, clock).value;
      RunAdvances(s', clock[used..], i - 1);
    }
  }

  lemma {:induction false} RunOrdered(s: State, clock: seq<int>, i: nat, j: nat)
    requires SequenceFits(s) && i < j < |Run(s, clock)|
    ensures SequenceFits(Run(s, clock)[i]) && SequenceFits(Run(s, clock)[j])
    ensures Before(Run(s, clock)[i], Run(s, clock)[j])
    decreases |clock|
  {
    StepAdvances(s, clock);
    var (s', used) := Step(s, clock).value;
    if i == 0 {
      RunAdvances(s', clock[used..], j - 1);
    } else {
      RunOrdered(s', clock[used..], i - 1, j - 1);
    }
  }

  /** For every stream of clock readings, as long as the internal timestamp stays
      in the 41-bit range, the ids of a run strictly increase below 2^63. */
  lemma IdsStrictlyIncrease(clock: seq<int>, datacenter: nat, machine: nat, i: nat, j: nat)
    requires datacenter <= MAX_WORKER && machine <= MAX_WORKER
    requires i < j < |Run(INITIAL, clock)|
    requires InRange(Run(INITIAL, clock)[i].last) && InRange(Run(INITIAL, clock)[j].last)
    ensures IdOf(Run(INITIAL, clock)[i], datacenter, machine)
         < IdOf(Run(INITIAL, clock)[j], datacenter, machine) < Pow2(63)
  {
    var s, s' := Run(INITIAL, clock)[i], Run(INITIAL, clock)[j];
    RunOrdered(INITIAL, clock, i, j);
    GreaterIdExact(s, s', datacenter, machine);
    FieldsRecovered(s'.last, datacenter, machine, s'.sequence);
  }

  // ---- The generator object ----

  class Generator {
    const machineId: nat
    const datacenterId: nat
    var lastTimestampMs: int
    var sequence: nat

    constructor (machineId: int, datacenterId: int)
      ensures Valid() && Now() == INITIAL
      ensures this.machineId == Clamp(machineId, MAX_WORKER) && this.datacenterId == Clamp(datacenterId, MAX_WORKER)
    {
      this.machineId := Clamp(machineId, MAX_WORKER);
      this.datacenterId := Clamp(datacenterId, MAX_WORKER);
      lastTimestampMs, sequence := -1, 0;
    }

    function Now(): State
      reads this
    {
      State(lastTimestampMs, sequence)
    }

    predicate Valid()
      reads this
    {
      SequenceFits(Now()) && machineId <= MAX_WORKER && datacenterId <= MAX_WORKER
    }

    /** The spin loop over the readings that follow. */
    method WaitNextMs(clock: seq<int>, currentMs: int) returns (r: Option<nat>)
      ensures r == NextPast(clock, currentMs)
    {
      var i := 0;
      while i < |clock| && clock[i] <= currentMs
        invariant 0 <= i <= |clock|
        invariant forall k :: 0 <= k < i ==> clock[k] <= currentMs
      {
        i := i + 1;
      }
      r := if i < |clock| then Some(i) else None;
    }

    /** The new timestamp and sequence, or nothing when the readings run out first. */
    method Advance(clock: seq<int>) returns (ok: bool, used: nat)
      requires clock != []
      modifies this
      ensures ok == Step(old(Now()), clock).Some?
      ensures ok ==> Now() == Step(old(Now()), clock).value.0 && used == Step(old(Now()), clock).value.1
    {
      used := 1;
      var currentMs := clock[0];
      if currentMs < lastTimestampMs {
        currentMs := lastTimestampMs + 1;
      } else if currentMs == lastTimestampMs {
        sequence := Mask(sequence + 1);
        if sequence == 0 {
          var past := WaitNextMs(clock[1..], currentMs);
          if past.None? {
            return false, |clock|;
          }
          used := past.value + 2;
          currentMs := clock[1..][past.value];
        }
      } else {
        sequence := 0;
      }
      lastTimestampMs := currentMs;
      ok := true;
    }

    /** Generates one id from the readings, or reports that the call still spins
        when they run out; the state follows `Step`. */
    method Generate(clock: seq<int>) returns (id: Option<nat>, used: nat)
      requires Valid() && clock != []
      modifies this
      ensures id.Some? <==> Step(old(Now()), clock).Some?
      ensures id.Some? ==>
        && Valid() && Now() == Step(old(Now()), clock).value.0 && used == Step(old(Now()), clock).value.1
        && id.value == IdOf(Now(), datacenterId, machineId)
    {
      var ok;
      ghost var before := Now();
      ok, used := Advance(clock);
      if !ok {
        return None, used;
      }
      StepAdvances(before, clock);
      var packed := Pack(lastTimestampMs);
      id := Some(packed);
    }

    method Mask(n: nat) returns (sequence: nat)
      ensures sequence == n % (MAX_SEQUENCE + 1)
    {
      MaskedSequence(n);
      sequence := BitAnd(n, MAX_SEQUENCE);
    }

    /** The id of a timestamp and the current sequence. */
    method Pack(currentMs: int) returns (id: nat)
      ensures id == Compose(currentMs, datacenterId, machineId, sequence)
    {
      var delta := currentMs - EPOCH;
      if delta < 0 {
        delta := 0;
      } else if delta > MAX_TIMESTAMP {
        delta := MAX_TIMESTAMP;
      }
      id := BitOr(Shl(delta, 22), BitOr(Shl(datacenterId, 17), BitOr(Shl(machineId, 12), sequence)));
    }
  }
}
