/** Model of the oscillator of src/oscillator.h and src/oscillator.cpp.

    An oscillator owns one band-limited saw generator and one band-limited
    square generator (STK's BlitSaw and BlitSquare), selects one of them with
    a two-state waveform switch, and keeps a base frequency and a detune
    factor whose product it pushes to both generators on every setter call.

    The generators' signal processing is not modelled: a generator is the
    frequency last given to it and the number of samples taken from it, and
    a sample is a token naming the generator and the sample's position in
    its output. Frequencies are real numbers (no float rounding). */
module Oscillators {

  datatype Waveform = Saw | Square

  /** An STK generator as the oscillator sees it: its frequency and how many samples were taken. */
  datatype Generator = Generator(frequency: real, ticks: nat)

  /** One output sample: the position `tick` in the output of the generator of shape `source`. */
  datatype Sample = Sample(source: Waveform, tick: nat)

  /** The fields of an Oscillator. */
  datatype OscState = OscState(wave: Waveform, baseFrequency: real, detune: real, saw: Generator, square: Generator)

  /** The result of one tick: the new state and the sample returned. */
  datatype Ticked = Ticked(state: OscState, sample: Sample)

  /** The frequency every setter gives both generators. */
  function Effective(s: OscState): real {
    s.baseFrequency * s.detune
  }

  /** Both generators run at base frequency times detune. */
  predicate InSync(s: OscState) {
    s.saw.frequency == Effective(s) && s.square.frequency == Effective(s)
  }

  /** The generator the current waveform selects. */
  function Selected(s: OscState): (g: Generator)
    ensures s.wave == Saw ==> g == s.saw
    ensures s.wave == Square ==> g == s.square
  {
    if s.wave == Saw then s.saw else s.square
  }

  /** A fresh oscillator: saw selected, base frequency 220, detune 1. The two
      generators keep the default frequencies they were built with, which are
      parameters here because they belong to the generator library. */
  function Initial(sawDefault: real, squareDefault: real): (s: OscState)
    ensures s.wave == Saw && s.baseFrequency == 220.0 && s.detune == 1.0
    ensures s.saw == Generator(sawDefault, 0) && s.square == Generator(squareDefault, 0)
  {
    OscState(Saw, 220.0, 1.0, Generator(sawDefault, 0), Generator(squareDefault, 0))
  }

  /** switchWave: the other waveform, nothing else changes. */
  function AfterSwitchWave(s: OscState): (r: OscState)
    ensures r.wave != s.wave
    ensures r.baseFrequency == s.baseFrequency && r.detune == s.detune
    ensures r.saw == s.saw && r.square == s.square
  {
    s.(wave := if s.wave == Saw then Square else Saw)
  }

  /** tick: takes the next sample of the selected generator only. */
  function AfterTick(s: OscState): (t: Ticked)
    ensures t.sample == Sample(s.wave, Selected(s).ticks)
    ensures Selected(t.state) == Selected(s).(ticks := Selected(s).ticks + 1)
    ensures s.wave == Saw ==> t.state.square == s.square
    ensures s.wave == Square ==> t.state.saw == s.saw
    ensures t.state.wave == s.wave && t.state.baseFrequency == s.baseFrequency && t.state.detune == s.detune
  {
    if s.wave == Saw then
      Ticked(s.(saw := s.saw.(ticks := s.saw.ticks + 1)), Sample(Saw, s.saw.ticks))
    else
      Ticked(s.(square := s.square.(ticks := s.square.ticks + 1)), Sample(Square, s.square.ticks))
  }

  /** updateFrequency: both generators get base frequency times detune,
      whichever waveform is selected; their sample counts are kept. */
  function AfterUpdateFrequency(s: OscState): (r: OscState)
    ensures InSync(r)
    ensures r.saw.frequency == r.square.frequency
    ensures r.wave == s.wave && r.baseFrequency == s.baseFrequency && r.detune == s.detune
    ensures r.saw.ticks == s.saw.ticks && r.square.ticks == s.square.ticks
  {
    var hz := s.baseFrequency * s.detune;
    s.(saw := s.saw.(frequency := hz), square := s.square.(frequency := hz))
  }

  /** setBaseFrequency(f): stores f, keeps detune, retunes both generators to f * detune. */
  function AfterSetBaseFrequency(s: OscState, f: real): (r: OscState)
    ensures r.baseFrequency == f && r.detune == s.detune && r.wave == s.wave
    ensures InSync(r) && r.saw.frequency == f * s.detune
    ensures r.saw.ticks == s.saw.ticks && r.square.ticks == s.square.ticks
  {
    AfterUpdateFrequency(s.(baseFrequency := f))
  }

  /** setDetune(d): stores d, keeps the base frequency, retunes both generators to base * d. */
  function AfterSetDetune(s: OscState, d: real): (r: OscState)
    ensures r.detune == d && r.baseFrequency == s.baseFrequency && r.wave == s.wave
    ensures InSync(r) && r.saw.frequency == s.baseFrequency * d
    ensures r.saw.ticks == s.saw.ticks && r.square.ticks == s.square.ticks
  {
    AfterUpdateFrequency(s.(detune := d))
  }

  // ---------------------------------------------------------------------
  // Properties over several calls

  /** switchWave twice is the identity. */
  lemma SwitchWaveInvolution(s: OscState)
    ensures AfterSwitchWave(AfterSwitchWave(s)) == s
  {
  }

  /** Setter order does not matter: setDetune(d) then setBaseFrequency(f), or
      the reverse, leave the same oscillator with both generators at f * d. */
  lemma SetterOrder(s: OscState, f: real, d: real)
    ensures AfterSetBaseFrequency(AfterSetDetune(s, d), f) == AfterSetDetune(AfterSetBaseFrequency(s, f), d)
    ensures AfterSetBaseFrequency(AfterSetDetune(s, d), f).saw.frequency == f * d
    ensures AfterSetBaseFrequency(AfterSetDetune(s, d), f).square.frequency == f * d
  {
  }

  /** The constructor does not call updateFrequency: a fresh oscillator is in
      sync exactly when both generators start at 220 Hz. */
  lemma InitialSync(sawDefault: real, squareDefault: real)
    ensures InSync(Initial(sawDefault, squareDefault)) <==> sawDefault == 220.0 && squareDefault == 220.0
  {
  }

  /** One call on an oscillator. */
  datatype Op = SwitchOp | TickOp | BaseOp(f: real) | DetuneOp(d: real)

  predicate IsSetter(op: Op) {
    op.BaseOp? || op.DetuneOp?
  }

  function Apply(s: OscState, op: Op): OscState {
    match op
    case SwitchOp => AfterSwitchWave(s)
    case TickOp => AfterTick(s).state
    case BaseOp(f) => AfterSetBaseFrequency(s, f)
    case DetuneOp(d) => AfterSetDetune(s, d)
  }

  /** The state after the calls ops, in order. */
  function Run(s: OscState, ops: seq<Op>): OscState
    decreases |ops|
  {
    if ops == [] then s else Run(Apply(s, ops[0]), ops[1..])
  }

  /** Number of tick calls in ops. */
  function TickCount(ops: seq<Op>): (c: nat)
    ensures c <= |ops|
    ensures c == 0 <==> TickOp !in ops
  {
    if ops == [] then 0 else (if ops[0] == TickOp then 1 else 0) + TickCount(ops[1..])
  }

  /** The base-times-detune invariant, once it holds, survives every call. */
  lemma {:induction false} SyncPreserved(s: OscState, ops: seq<Op>)
    requires InSync(s)
    ensures InSync(Run(s, ops))
    decreases |ops|
  {
    if ops != [] {
      SyncPreserved(Apply(s, ops[0]), ops[1..]);
    }
  }

  /** After any setter call the oscillator is in sync, whatever came before it. */
  lemma SyncAfterSetter(s: OscState, ops: seq<Op>, k: nat)
    requires k < |ops| && IsSetter(ops[k])
    ensures InSync(Run(s, ops))
  {
    RunSplit(s, ops, k);
    SyncPreserved(Apply(Run(s, ops[..k]), ops[k]), ops[k + 1..]);
  }

  /** Running ops is running its first k calls, then call k, then the rest. */
  lemma {:induction false} RunSplit(s: OscState, ops: seq<Op>, k: nat)
    requires k < |ops|
    ensures Run(s, ops) == Run(Apply(Run(s, ops[..k]), ops[k]), ops[k + 1..])
    decreases k
  {
    if k > 0 {
      RunSplit(Apply(s, ops[0]), ops[1..], k - 1);
      assert ops[1..][..k - 1] == ops[..k][1..];
      assert ops[1..][k - 1] == ops[k] && ops[1..][k..] == ops[k + 1..];
    }
  }

  /** Only tick calls take samples, one each, from one generator. */
  lemma {:induction false} TicksCounted(s: OscState, ops: seq<Op>)
    ensures Run(s, ops).saw.ticks + Run(s, ops).square.ticks == s.saw.ticks + s.square.ticks + TickCount(ops)
    decreases |ops|
  {
    if ops != [] {
      TicksCounted(Apply(s, ops[0]), ops[1..]);
    }
  }

  // ---------------------------------------------------------------------
  // The oscillator object

  class Oscillator {
    var saw: Generator
    var square: Generator
    var currentWave: Waveform
    var baseFrequency: real
    var detune: real

    function State(): OscState
      reads this
    {
      OscState(currentWave, baseFrequency, detune, saw, square)
    }

    /** Builds both generators (at the library's default frequencies), selects
        the saw, base frequency 220, detune 1; the generators are not retuned. */
    constructor (sawDefault: real, squareDefault: real)
      ensures State() == Initial(sawDefault, squareDefault)
    {
      saw := Generator(sawDefault, 0);
      square := Generator(squareDefault, 0);
      currentWave := Saw;
      baseFrequency := 220.0;
      detune := 1.0;
    }

    method SwitchWave()
      modifies this
      ensures State() == AfterSwitchWave(old(State()))
    {
      currentWave := if currentWave == Saw then Square else Saw;
    }

    method Tick() returns (sample: Sample)
      modifies this
      ensures Ticked(State(), sample) == AfterTick(old(State()))
    {
      if currentWave == Saw {
        sample := Sample(Saw, saw.ticks);
        saw := saw.(ticks := saw.ticks + 1);
      } else {
        sample := Sample(Square, square.ticks);
        square := square.(ticks := square.ticks + 1);
      }
    }

    method SetBaseFrequency(frequency: real)
      modifies this
      ensures State() == AfterSetBaseFrequency(old(State()), frequency)
    {
      baseFrequency := frequency;
      UpdateFrequency();
    }

    method SetDetune(value: real)
      modifies this
      ensures State() == AfterSetDetune(old(State()), value)
    {
      detune := value;
      UpdateFrequency();
    }

    method UpdateFrequency()
      modifies this
      ensures State() == AfterUpdateFrequency(old(State()))
    {
      saw := saw.(frequency := baseFrequency * detune);
      square := square.(frequency := baseFrequency * detune);
    }
  }
}
