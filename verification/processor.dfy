/**
 `BirdcallAudioProcessor`: two mono filter chains, `prepareToPlay` and `processBlock`.

 Each chain is a `ProcessorChain` holding one IIR filter. The filter's arithmetic is not
 modelled: a filter is its current coefficient set plus an opaque history value of type
 `H`, and the `Kernel` supplies the two operations the processor calls on it: `prepare`,
 which gives a fresh history for a `ProcessSpec`, and `step`, which filters one sample
 with the given coefficients and returns the updated history. A block is filtered in
 place, one sample after another in index order.

 A coefficient set designed by `makePeakFilter` is encoded as the record of the arguments
 it was designed from; the encoding distinguishes designs, not the coefficients they yield.

 An audio buffer is a sequence of channels, each a sequence of samples.
 */
module Processor {
  import Notes
  import Resolver
  import Parameters
  import BusLayout

  type Buffer = seq<seq<real>>

  datatype ProcessSpec = ProcessSpec(sampleRate: real, maximumBlockSize: int, numChannels: int)

  /** A filter's coefficients: the ones it was built with, or a peak filter design. */
  datatype Coefficients =
    | Initial
    | PeakFilter(sampleRate: real, design: Resolver.PeakDesign)

  datatype Filter<H> = Filter(coefficients: Coefficients, history: H)

  /** `ProcessorChain<Filter>`: one processor, the peak filter. */
  datatype MonoChain<H> = MonoChain(peak: Filter<H>)

  /** `ChainPositions`: the peak filter is the chain's processor number 0. */
  datatype ChainPosition = Peak

  function PositionIndex(p: ChainPosition): nat {
    match p
    case Peak => 0
  }

  /** The opaque per-channel filter operations. */
  datatype Kernel<!H> = Kernel(prepare: ProcessSpec -> H, step: (Coefficients, H, real) -> (H, real))

  /** The processor's own state: `leftChain` and `rightChain`, two separate values. */
  datatype Processor<H> = Processor(leftChain: MonoChain<H>, rightChain: MonoChain<H>)

  /** `makePeakFilter (sampleRate, frequency, Q, gain)`. */
  function MakePeakFilter(sampleRate: real, design: Resolver.PeakDesign): Coefficients {
    PeakFilter(sampleRate, design)
  }

  /** `*chain.get<Peak>().coefficients = c`: replaces the coefficients and keeps the history. */
  function SetPeakCoefficients<H>(chain: MonoChain<H>, c: Coefficients): (r: MonoChain<H>)
    ensures r.peak.coefficients == c && r.peak.history == chain.peak.history
  {
    MonoChain(chain.peak.(coefficients := c))
  }

  /** What both callbacks compute from the stored choice index before designing the filter. */
  function DesignFor(choiceIndex: int): Resolver.PeakDesign {
    Resolver.Resolve(Parameters.GetChainSettings(choiceIndex).note)
  }

  function Zeros(n: nat): (z: seq<real>)
    ensures |z| == n && forall j :: 0 <= j < n ==> z[j] == 0.0
  {
    seq(n, _ => 0.0)
  }

  function NumSamples(buffer: Buffer): nat {
    if buffer == [] then 0 else |buffer[0]|
  }

  /**
   Filters `xs` sample by sample with coefficients `c`, starting from history `h`;
   returns the final history and the filtered block, which has one sample per input sample.
   */
  function RunFilter<H>(step: (Coefficients, H, real) -> (H, real), c: Coefficients, h: H, xs: seq<real>)
    : (r: (H, seq<real>))
    ensures |r.1| == |xs|
    decreases |xs|
  {
    if xs == [] then (h, [])
    else
      var before := RunFilter(step, c, h, xs[..|xs| - 1]);
      var after := step(c, before.0, xs[|xs| - 1]);
      (after.0, before.1 + [after.1])
  }

  /**
   The clearing loop of `processBlock`, from channel `i` up to `numOut`: every channel in
   `[i, numOut)` becomes silence of the buffer's length, and every other channel is kept.
   */
  function ClearOutputsFrom(buffer: Buffer, i: nat, numOut: nat): (r: Buffer)
    requires numOut <= |buffer|
    ensures |r| == |buffer| && NumSamples(r) == NumSamples(buffer)
    ensures forall c :: 0 <= c < |buffer| ==>
      r[c] == (if i <= c < numOut then Zeros(NumSamples(buffer)) else buffer[c])
    decreases numOut - i
  {
    if i >= numOut then buffer
    else ClearOutputsFrom(buffer[i := Zeros(NumSamples(buffer))], i + 1, numOut)
  }

  /**
   `prepareToPlay`: both chains are prepared for one channel at the given rate and block
   size, and both get the peak design for the stored note. The result does not depend on
   the state before the call, and the two chains come out identical.
   */
  function PrepareToPlay<H>(k: Kernel<H>, p: Processor<H>, sampleRate: real, samplesPerBlock: int, choiceIndex: int)
    : (q: Processor<H>)
    ensures q.leftChain == q.rightChain
    ensures q.leftChain.peak.history == k.prepare(ProcessSpec(sampleRate, samplesPerBlock, 1))
    ensures q.leftChain.peak.coefficients.PeakFilter?
    ensures q.leftChain.peak.coefficients.sampleRate == sampleRate
    ensures q.leftChain.peak.coefficients.design.quality == 10
    ensures 1 <= choiceIndex <= 12 ==> q.leftChain.peak.coefficients.design == Resolver.PeakDesign(49388, 10, 24)
    ensures choiceIndex == 0 ==> q.leftChain.peak.coefficients.design.gainDb == 0
    ensures q.leftChain.peak.coefficients == MakePeakFilter(sampleRate, DesignFor(choiceIndex))
  {
    var spec := ProcessSpec(sampleRate, samplesPerBlock, 1);
    var left := MonoChain(p.leftChain.peak.(history := k.prepare(spec)));
    var right := MonoChain(p.rightChain.peak.(history := k.prepare(spec)));
    var coefficients := MakePeakFilter(sampleRate, DesignFor(choiceIndex));
    Processor(SetPeakCoefficients(left, coefficients), SetPeakCoefficients(right, coefficients))
  }

  /**
   `processBlock` as written: clears the outputs that have no input, designs the peak
   filter for the stored note, gives the same coefficients to both chains, and then runs
   the left chain and the right chain both over channel 0.
   */
  function ProcessBlock<H>(k: Kernel<H>, p: Processor<H>, buffer: Buffer, numIn: nat, numOut: nat,
                           sampleRate: real, choiceIndex: int)
    : (r: (Processor<H>, Buffer))
    requires 1 <= |buffer| && numOut <= |buffer|
    ensures |r.1| == |buffer|
    ensures |r.1[0]| == |buffer[0]|
    ensures forall c :: 1 <= c < |buffer| ==>
      r.1[c] == (if numIn <= c < numOut then Zeros(NumSamples(buffer)) else buffer[c])
    ensures r.0.leftChain.peak.coefficients == r.0.rightChain.peak.coefficients
    ensures r.0.leftChain.peak.coefficients == PeakFilter(sampleRate, DesignFor(choiceIndex))
  {
    var cleared := ClearOutputsFrom(buffer, numIn, numOut);
    var coefficients := MakePeakFilter(sampleRate, DesignFor(choiceIndex));
    var left := SetPeakCoefficients(p.leftChain, coefficients);
    var right := SetPeakCoefficients(p.rightChain, coefficients);
    var leftRun := RunFilter(k.step, coefficients, left.peak.history, cleared[0]);
    var rightRun := RunFilter(k.step, coefficients, right.peak.history, leftRun.1);
    var q := Processor(MonoChain(left.peak.(history := leftRun.0)), MonoChain(right.peak.(history := rightRun.0)));
    (q, cleared[0 := rightRun.1])
  }

  /**
   `processBlock` with the right context on channel 1, which is what the two contexts
   are evidently meant for: channel 0 runs through the left chain alone, channel 1
   (when the buffer has one) through the right chain alone.
   */
  function ProcessBlockStereo<H>(k: Kernel<H>, p: Processor<H>, buffer: Buffer, numIn: nat, numOut: nat,
                                 sampleRate: real, choiceIndex: int)
    : (r: (Processor<H>, Buffer))
    requires 1 <= |buffer| && numOut <= |buffer|
    ensures |r.1| == |buffer|
    ensures forall c :: 2 <= c < |buffer| ==>
      r.1[c] == (if numIn <= c < numOut then Zeros(NumSamples(buffer)) else buffer[c])
    ensures r.0.leftChain.peak.coefficients == r.0.rightChain.peak.coefficients
    ensures r.0.leftChain.peak.coefficients == PeakFilter(sampleRate, DesignFor(choiceIndex))
    ensures var c := PeakFilter(sampleRate, DesignFor(choiceIndex));
            var cleared := ClearOutputsFrom(buffer, numIn, numOut);
            && r.1[0] == RunFilter(k.step, c, p.leftChain.peak.history, cleared[0]).1
            && r.0.leftChain.peak.history == RunFilter(k.step, c, p.leftChain.peak.history, cleared[0]).0
            && (|buffer| >= 2 ==> r.1[1] == RunFilter(k.step, c, p.rightChain.peak.history, cleared[1]).1)
            && (|buffer| >= 2 ==> r.0.rightChain.peak.history == RunFilter(k.step, c, p.rightChain.peak.history, cleared[1]).0)
            && (|buffer| == 1 ==> r.0.rightChain.peak.history == p.rightChain.peak.history)
  {
    var cleared := ClearOutputsFrom(buffer, numIn, numOut);
    var coefficients := MakePeakFilter(sampleRate, DesignFor(choiceIndex));
    var left := SetPeakCoefficients(p.leftChain, coefficients);
    var right := SetPeakCoefficients(p.rightChain, coefficients);
    var leftRun := RunFilter(k.step, coefficients, left.peak.history, cleared[0]);
    if |buffer| == 1 then
      (Processor(MonoChain(left.peak.(history := leftRun.0)), right), cleared[0 := leftRun.1])
    else
      var rightRun := RunFilter(k.step, coefficients, right.peak.history, cleared[1]);
      var q := Processor(MonoChain(left.peak.(history := leftRun.0)), MonoChain(right.peak.(history := rightRun.0)));
      (q, cleared[0 := leftRun.1][1 := rightRun.1])
  }

  // ---------------------------------------------------------------------------------
  // Properties

  /** Filtering is causal: the first `j` output samples depend only on the first `j` inputs. */
  lemma {:induction false} RunFilterIsCausal<H>(step: (Coefficients, H, real) -> (H, real), c: Coefficients,
                                                h: H, xs: seq<real>, j: nat)
    requires j <= |xs|
    ensures RunFilter(step, c, h, xs[..j]).1 == RunFilter(step, c, h, xs).1[..j]
    decreases |xs|
  {
    if j < |xs| {
      var init := xs[..|xs| - 1];
      RunFilterIsCausal(step, c, h, init, j);
      assert init[..j] == xs[..j];
      var before := RunFilter(step, c, h, init);
      assert RunFilter(step, c, h, xs).1 == before.1 + [step(c, before.0, xs[|xs| - 1]).1];
      assert (before.1 + [step(c, before.0, xs[|xs| - 1]).1])[..j] == before.1[..j];
    } else {
      assert xs[..j] == xs;
    }
  }

  /**
   Filtering a block in two parts, the second starting from the history the first left,
   is filtering it whole: a chain's history carries over from one `processBlock` call to the next.
   */
  lemma {:induction false} RunFilterSplit<H>(step: (Coefficients, H, real) -> (H, real), c: Coefficients,
                                             h: H, xs: seq<real>, ys: seq<real>)
    ensures var a := RunFilter(step, c, h, xs);
            var b := RunFilter(step, c, a.0, ys);
            RunFilter(step, c, h, xs + ys) == (b.0, a.1 + b.1)
    decreases |ys|
  {
    var a := RunFilter(step, c, h, xs);
    if ys == [] {
      assert xs + ys == xs;
      assert a.1 + RunFilter(step, c, a.0, ys).1 == a.1;
    } else {
      var init := ys[..|ys| - 1];
      var last := ys[|ys| - 1];
      RunFilterSplit(step, c, h, xs, init);
      assert (xs + ys)[..|xs + ys| - 1] == xs + init;
      assert (xs + ys)[|xs + ys| - 1] == last;
      var b := RunFilter(step, c, a.0, init);
      var out := step(c, b.0, last);
      assert xs + ys != [];
      assert RunFilter(step, c, h, xs + ys) == (out.0, RunFilter(step, c, h, xs + init).1 + [out.1]);
      assert RunFilter(step, c, a.0, ys) == (out.0, b.1 + [out.1]);
      assert (a.1 + b.1) + [out.1] == a.1 + (b.1 + [out.1]);
    }
  }

  /** A chain holds exactly one processor, the peak filter, at index 0. */
  lemma PeakIsOnlyPosition(p: ChainPosition)
    ensures p == Peak && PositionIndex(p) == 0
  {
  }

  /**
   A designed coefficient set is never the filter's initial one; and at a sample rate whose
   Nyquist frequency lies above 493.88 Hz, the designs the stored choice can select give the
   same coefficient set exactly when they are the same design.
   */
  lemma MakePeakFilterInjective(rate: real, design: Resolver.PeakDesign, i: int, j: int)
    ensures MakePeakFilter(rate, design) != Initial
    ensures rate > 987.76 ==>
      (MakePeakFilter(rate, DesignFor(i)) == MakePeakFilter(rate, DesignFor(j)) <==> DesignFor(i) == DesignFor(j))
  {
  }

  /** `prepareToPlay` and `processBlock` give the chains the same coefficients for the same note and rate. */
  lemma PrepareAndProcessAgree<H>(k: Kernel<H>, p: Processor<H>, p': Processor<H>, samplesPerBlock: int,
                                  buffer: Buffer, numIn: nat, numOut: nat, sampleRate: real, choiceIndex: int)
    requires 1 <= |buffer| && numOut <= |buffer|
    ensures PrepareToPlay(k, p, sampleRate, samplesPerBlock, choiceIndex).leftChain.peak.coefficients
         == ProcessBlock(k, p', buffer, numIn, numOut, sampleRate, choiceIndex).0.rightChain.peak.coefficients
  {
  }

  /**
   In `processBlock` as written, channel 0 is filtered twice: by the left chain, and
   then that output by the right chain. The left chain's new history depends on the left
   chain alone; the right chain sees channel 0 already filtered, never channel 1.
   */
  lemma ChannelZeroFilteredTwice<H>(k: Kernel<H>, p: Processor<H>, buffer: Buffer, numIn: nat, numOut: nat,
                                    sampleRate: real, choiceIndex: int)
    requires 1 <= |buffer| && numOut <= |buffer|
    ensures var c := PeakFilter(sampleRate, DesignFor(choiceIndex));
            var input := if numIn <= 0 < numOut then Zeros(NumSamples(buffer)) else buffer[0];
            var leftRun := RunFilter(k.step, c, p.leftChain.peak.history, input);
            var rightRun := RunFilter(k.step, c, p.rightChain.peak.history, leftRun.1);
            var r := ProcessBlock(k, p, buffer, numIn, numOut, sampleRate, choiceIndex);
            r.1[0] == rightRun.1 && r.0.leftChain.peak.history == leftRun.0 && r.0.rightChain.peak.history == rightRun.0
  {
  }

  /** The left chain's state after `processBlock` does not depend on the right chain's state before it. */
  lemma LeftChainIndependentOfRight<H>(k: Kernel<H>, p: Processor<H>, p': Processor<H>, buffer: Buffer,
                                       numIn: nat, numOut: nat, sampleRate: real, choiceIndex: int)
    requires 1 <= |buffer| && numOut <= |buffer|
    requires p.leftChain == p'.leftChain
    ensures ProcessBlock(k, p, buffer, numIn, numOut, sampleRate, choiceIndex).0.leftChain
         == ProcessBlock(k, p', buffer, numIn, numOut, sampleRate, choiceIndex).0.leftChain
  {
  }

  /**
   In a layout the processor accepts, made of its main buses only, there are as many
   inputs as outputs, so the clearing loop changes nothing; every channel but 0 then
   leaves `processBlock` exactly as it came in. In stereo, the right channel is never filtered.
   */
  lemma SupportedLayoutLeavesOtherChannels<H>(l: BusLayout.BusesLayout, k: Kernel<H>, p: Processor<H>,
                                              buffer: Buffer, sampleRate: real, choiceIndex: int)
    requires BusLayout.IsBusesLayoutSupported(l)
    requires |l.inputBuses| == 1 && |l.outputBuses| == 1
    requires BusLayout.TotalChannels(l.outputBuses) <= |buffer|
    ensures ClearOutputsFrom(buffer, BusLayout.TotalChannels(l.inputBuses), BusLayout.TotalChannels(l.outputBuses)) == buffer
    ensures forall c :: 1 <= c < |buffer| ==>
      ProcessBlock(k, p, buffer, BusLayout.TotalChannels(l.inputBuses), BusLayout.TotalChannels(l.outputBuses),
                   sampleRate, choiceIndex).1[c] == buffer[c]
  {
    BusLayout.SupportedLayouts(l);
  }

  /**
   With the right context on channel 1, a channel's output depends on its own input and
   its own chain only: when channels 0 and 1 come in equal and are treated alike by the
   clearing loop, and the two chains are in the same state (as `prepareToPlay` leaves
   them), the two channels and the two chains come out equal.
   */
  lemma StereoRoutingFiltersEachChannelOnce<H>(k: Kernel<H>, p: Processor<H>, buffer: Buffer, numIn: nat,
                                               numOut: nat, sampleRate: real, choiceIndex: int)
    requires 2 <= |buffer| && numOut <= |buffer|
    requires buffer[0] == buffer[1] && (numIn <= 0 < numOut <==> numIn <= 1 < numOut)
    requires p.leftChain.peak.history == p.rightChain.peak.history
    ensures var r := ProcessBlockStereo(k, p, buffer, numIn, numOut, sampleRate, choiceIndex);
            r.1[0] == r.1[1] && r.0.leftChain == r.0.rightChain
  {
  }

  /** A stateless filter that doubles every sample, to make the routing visible. */
  function Doubler(): Kernel<int> {
    Kernel(_ => 0, (c, h, x) => (h, 2.0 * x))
  }

  /**
   One stereo sample of 1.0 on each side, doubling filter: as written, the left channel
   is doubled twice and the right channel not at all; with the right context on channel
   1, both come out doubled once.
   */
  lemma RoutingCounterexample(p: Processor<int>)
    ensures ProcessBlock(Doubler(), p, [[1.0], [1.0]], 2, 2, 44100.0, 10).1 == [[4.0], [1.0]]
    ensures ProcessBlockStereo(Doubler(), p, [[1.0], [1.0]], 2, 2, 44100.0, 10).1 == [[2.0], [2.0]]
  {
    var c := PeakFilter(44100.0, DesignFor(10));
    var once := RunFilter(Doubler().step, c, p.leftChain.peak.history, [1.0]);
    assert [1.0][..0] == [];
    assert once.1 == [2.0];
    var twice := RunFilter(Doubler().step, c, p.rightChain.peak.history, [2.0]);
    assert [2.0][..0] == [];
    assert twice.1 == [4.0];
    var other := RunFilter(Doubler().step, c, p.rightChain.peak.history, [1.0]);
    assert other.1 == [2.0];
  }
}
