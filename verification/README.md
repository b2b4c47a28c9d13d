# Bird-call peak filter: a Dafny model of its decision logic

The plugin is a JUCE audio effect that boosts a narrow band around a chosen musical note.
The host exposes one choice parameter, "Note": Bypass or one of the twelve semitones
C4 … B4. `BirdcallAudioProcessor` owns two mono filter chains, `leftChain` and `rightChain`. Each chain
holds one IIR peak filter. In `prepareToPlay` and again in every `processBlock`, the
processor reads the stored note and maps it to peak-filter design parameters (frequency, Q and
gain) through a `switch`. It then designs the coefficients and hands the same set to both
chains. In `processBlock` it first clears output channels that have no input. Then it runs
both chains over the audio block.

This project models what the plugin itself decides. All numerics are delegated to JUCE and are not modelled:

- `Notes` (notes.dfy): the 13-valued `Notes` enum, its ordinals, labels and the nominal
  note frequencies, in hundredths of a hertz.
- `Resolver` (resolver.dfy): the note `switch`, modelled literally. It is a sequence of
  `case` clauses of assignments and `break`s, run with C++ semantics: control enters at the
  matching label and falls through until a `break`, and no label matching means nothing runs.
  Frequencies are exact integers in hundredths of Hz, gain is in dB (0 or 24), and Q is 10.
- `Parameters` (parameters.dfy): `ChainSettings`, `getChainSettings` and
  `createParameterLayout`.
- `BusLayout` (buslayout.dfy): channel sets, bus layouts and `isBusesLayoutSupported` for
  the effect build (neither synth nor MIDI effect).
- `Processor` (processor.dfy): the two chains, `prepareToPlay` and the routing of
  `processBlock` over a buffer `seq<seq<real>>`. A filter is its coefficient set plus an
  opaque history. A `Kernel` supplies `prepare` (a fresh history) and `step` (filter one
  sample, update the history). `makePeakFilter` is modelled as the record of its arguments.
- `Wrappers` (wrappers.dfy): an `Option` type.

What the proofs establish:
- Bypass resolves to 0 dB at the 20 Hz placeholder.
- Every pitched note resolves to 493.88 Hz at +24 dB, because no pitched case ends in `break`.
- A value that names no note keeps the defaults, 20 Hz and +24 dB.
- Q is 10 throughout.
- Both chains always receive the same coefficients.
- `processBlock` runs channel 0 through the left chain and then through the right chain.
  Channel 1 is never filtered.

Two details of the code look unintended, and the model keeps both as written:
- The switch lists twelve distinct frequencies, which shows that one frequency per note was
  meant. No pitched case ends in `break`, so every pitched note falls through to B4.
- The two processing contexts are named left and right, yet both wrap channel 0.

Both are logged under "## Findings". Each has an as-written member and a corrected member.

A modelling note on stored values: an index outside 0..12 matches no label and keeps the
defaults, +24 dB at 20 Hz. The host never stores such an index, because it clamps the
choice to its 13 labels.

## Model

| member | source | states |
|---|---|---|
| Notes.Ordinal | Source/PluginProcessor.h:13-28 | each enumerator has an ordinal below 13, and only Bypass has ordinal 0 |
| Notes.FromOrdinal | Source/PluginProcessor.h:13-28 | an integer names an enumerator exactly when it lies in 0..12, and that enumerator's ordinal is the integer |
| Notes.AllNotesInOrdinalOrder | Source/PluginProcessor.h:13-28 | the 13 enumerators, listed in declaration order, sit at the index equal to their ordinal, and every enumerator is listed |
| Notes.OrdinalRoundTrip | Source/PluginProcessor.h:13-28 | ordinal and enumerator convert into each other without loss, in both directions |
| Notes.OrdinalsAscendBySemitone | Source/PluginProcessor.h:15-27 | the pitched notes are in ascending semitone order: the MIDI key of each is 59 plus its ordinal |
| Notes.NominalFrequencyAscending | Source/PluginProcessor.cpp:117-140 | the frequencies written for the pitched notes rise strictly with the ordinal, so no two pitched notes share a frequency |
| Notes.NominalFrequencyInOctave | Source/PluginProcessor.cpp:117-140 | A note has a nominal frequency exactly when it is pitched, and every such frequency lies between 261.63 Hz and 493.88 Hz. |
| Notes.NamesDistinct | Source/PluginProcessor.cpp:288-301 | no two notes share a label |
| Resolver.Exec | Source/PluginProcessor.cpp:112-141 | the statements control passes through run in order until the first `break`; Q never changes, and a run of frequency assignments leaves the gain unchanged |
| Resolver.RunSwitch | Source/PluginProcessor.cpp:112-141 | running the switch never changes Q, since no case assigns it, and leaves every value unchanged when no label equals the scrutinee |
| Resolver.MatchesOrdinal | Source/PluginProcessor.cpp:112-141 | in a 13-case switch labelled 0..12 in order, control enters at case v when v is in 0..12 and nowhere otherwise |
| Resolver.MatchIndex | Source/PluginProcessor.cpp:112-141 | the switch enters at the first case whose label equals the value; it enters nowhere exactly when no label equals it |
| Resolver.Resolve | Source/PluginProcessor.cpp:107-141 | after the switch, Q is 10 for every value; Bypass gives 0 dB at 20 Hz; every pitched ordinal 1..12 gives 493.88 Hz at +24 dB; any other value keeps the defaults of 20 Hz and +24 dB |
| Resolver.ExecAppend | Source/PluginProcessor.cpp:117-140 | statements without a `break` followed by further statements run as the first block and then the second |
| Resolver.LastFrequencyWins | Source/PluginProcessor.cpp:117-140 | after a run of frequency assignments only the last one remains, and Q and gain are unchanged |
| Resolver.FallThroughToLast | Source/PluginProcessor.cpp:117-141 | entering a run of `break`-less single-assignment cases at any of them, control passes only frequency assignments and ends with the last case's |
| Resolver.PitchedNotesCollapse | Source/PluginProcessor.cpp:117-140 | a pitched note is resolved to its own frequency if and only if it is B4; C4 in particular is not |
| Resolver.SourceTableIsNominal | Source/PluginProcessor.cpp:117-140 | each pitched case assigns that note's nominal frequency; adding a `break` to it gives the corrected case |
| Resolver.ResolveCorrected | Source/PluginProcessor.cpp:112-141 | with a `break` closing each case, every note gets its intended design (its own frequency at +24 dB, Bypass 0 dB) and unknown values keep the defaults |
| Resolver.CorrectedIsInjective | Source/PluginProcessor.cpp:112-141 | with the `break`s, distinct notes get distinct designs, and exactly the pitched notes get +24 dB |
| Resolver.ResolversAgreeOutsideFallThrough | Source/PluginProcessor.cpp:112-141 | the written switch and the corrected one agree on Bypass, on B4 and on unknown values; for C4..Bb4 the written frequency is higher than intended |
| Parameters.CreateParameterLayout | Source/PluginProcessor.cpp:284-306 | one parameter "Note" with exactly 13 labels, label i the name of the note with ordinal i, defaulting to Bypass |
| Parameters.GetChainSettings | Source/PluginProcessor.cpp:275-282 | the settings carry the stored index as the note, and the gain keeps its default |
| Parameters.DefaultSettingsAreBypass | Source/PluginProcessor.h:30-35 | a default-constructed `ChainSettings` selects Bypass with gain 0 dB |
| Parameters.ChoiceSelectsNamedNote | Source/PluginProcessor.cpp:275-303 | label i names note n if and only if i is n's ordinal, and the index the host stores reads back as n if and only if i is n's ordinal |
| Parameters.DefaultChoiceBypasses | Source/PluginProcessor.cpp:303 | the parameter's start-up index resolves to 0 dB at 20 Hz with Q 10 |
| BusLayout.TotalChannels | Source/PluginProcessor.cpp:184-185 | the channel total of a single bus is that bus's channel count, and of no buses zero |
| BusLayout.TotalChannelsAppend | Source/PluginProcessor.cpp:184-185 | the channel total over two groups of buses is the sum of the two groups' totals, so the total over any buses is the sum of their channel counts |
| BusLayout.IsBusesLayoutSupported | Source/PluginProcessor.cpp:156-178 | a layout is accepted iff its main output is mono or stereo and its main input equals its main output; accepted main buses carry one or two channels each, the same on both sides |
| BusLayout.SupportedLayouts | Source/PluginProcessor.cpp:156-178 | the declared stereo-in, stereo-out layout and mono-in, mono-out are accepted; mismatched, missing or disabled main buses are refused; an accepted layout of main buses only has equal input and output channel totals |
| Processor.RunFilter | Source/PluginProcessor.cpp:245-246 | running a chain over a block yields exactly one output sample per input sample |
| Processor.RunFilterIsCausal | Source/PluginProcessor.cpp:245-246 | the first j outputs of a chain depend only on the first j inputs |
| Processor.RunFilterSplit | Source/PluginProcessor.cpp:245-246 | filtering a block in two parts, the second from the history the first left, gives the same outputs and final history as filtering it whole, so a chain carries its state from one block to the next |
| Processor.ClearOutputsFrom | Source/PluginProcessor.cpp:193-194 | every channel with index in [inputs, outputs) becomes all zeros, and every other channel is untouched |
| Processor.SetPeakCoefficients | Source/PluginProcessor.cpp:234-235 | installing coefficients in a chain's peak filter replaces its coefficients and keeps its history |
| Processor.MakePeakFilterInjective | Source/PluginProcessor.cpp:232 | a designed coefficient set is never the filter's initial one; at any sample rate above 987.76 Hz, the designs a stored choice can select (Bypass, the pitched design, the defaults) give equal sets exactly when they are the same design |
| Processor.PrepareToPlay | Source/PluginProcessor.cpp:94-147 | both chains come out identical: freshly prepared for one channel, and given a peak design at the given rate with Q 10; 493.88 Hz at +24 dB for any pitched note, 0 dB for Bypass; the coefficients are exactly the peak design for the stored index, as `processBlock` installs them |
| Processor.ProcessBlock | Source/PluginProcessor.cpp:181-247 | every channel other than 0 leaves either cleared (it has no input) or unchanged, and both chains end up holding the same coefficients, those designed for the stored note at the current rate |
| Processor.PeakIsOnlyPosition | Source/PluginProcessor.h:89-97 | a chain has one processor position, Peak, at index 0 |
| Processor.PrepareAndProcessAgree | Source/PluginProcessor.cpp:107-146 | for the same note and sample rate, `prepareToPlay` and `processBlock` install the same coefficients |
| Processor.ChannelZeroFilteredTwice | Source/PluginProcessor.cpp:237-246 | channel 0 is filtered by the left chain and the result by the right chain; each chain's new history comes from its own old history |
| Processor.LeftChainIndependentOfRight | Source/PluginProcessor.h:92 | the left chain's state after a block does not depend on the right chain's state before it |
| Processor.SupportedLayoutLeavesOtherChannels | Source/PluginProcessor.cpp:166-194 | under an accepted layout of main buses only, the clearing loop changes nothing and every channel but 0 leaves `processBlock` unchanged |
| Processor.ProcessBlockStereo | Source/PluginProcessor.cpp:237-246 | with the right context on channel 1, channel 0 is the left chain's output on the cleared channel 0 and the left history advances by it; when there is a channel 1, it is the right chain's output on the cleared channel 1 and the right history advances by it; in a mono buffer the right history is untouched; channels from 2 up are cleared or kept; both chains hold the same coefficients designed for the stored note |
| Processor.StereoRoutingFiltersEachChannelOnce | Source/PluginProcessor.cpp:237-246 | with the right context on channel 1, for any buffer of two or more channels and any channel counts: when channels 0 and 1 come in equal and are cleared alike, and the two chains start in the same state, the two channels and the two chains come out equal |
| Processor.RoutingCounterexample | Source/PluginProcessor.cpp:239-240 | with a sample-doubling filter, stereo input 1.0/1.0 leaves as 4.0/1.0 as written, and as 2.0/2.0 with the right context on channel 1 |

## Left out

- The coefficient formula of `makePeakFilter` (Source/PluginProcessor.cpp:143, 232) is left out. It is the Audio EQ Cookbook peaking design, computed in floating point inside JUCE. A coefficient set is modelled as the record of the arguments it was designed from.
- Processor.MakePeakFilterInjective: separates only the designs the stored choice can select, and only at sample rates above 987.76 Hz, twice the highest design frequency. The cookbook design sees frequency only through 2π·frequency/sampleRate, so in general distinct designs can give the same coefficients: frequencies f and f + sampleRate coincide, and at f = sampleRate/2 every Q and gain gives the same set. The record encoding of a coefficient set does not reflect these collisions, so the model promises nothing about them.
- The biquad recurrence inside JUCE's IIR filter is left out. The filter is an opaque per-sample step over an opaque history, and samples are taken in index order.
- `Decibels::decibelsToGain` is float exponentiation. Gains stay in dB: 24 for pitched notes and unknown values, 0 for Bypass.
- Float literals such as `261.63` are kept as exact hundredths of a hertz, and `10.f` as the integer 10. Float rounding of these constants is not modelled.
- The atomic `getRawParameterValue("Note")->load()` is modelled as the integer index it returns. The float-to-enum truncation of the cast is not modelled. The host's clamping of the stored index to 0..12 is also not modelled, so every integer is allowed.
- `ScopedNoDenormals` and the `midiMessages` argument are left out. They are a hardware float mode and an unused MIDI buffer.
- `isBusesLayoutSupported` is modelled for the effect build only. The MIDI-effect build accepts every layout. The synth build skips the input check.
- The bus set the constructor declares appears only as `BusLayout.DefaultLayout`. The sample rate the host reports (`getSampleRate()`) is a parameter of `ProcessBlock`.
- Plugin metadata, program stubs, `releaseResources`, state save and restore, and editor creation are left out (Source/PluginProcessor.cpp:27-91, 149-153, 250-273). They are host and UI glue with no logic.
- A buffer is not required to be rectangular. A JUCE buffer has one sample count for all channels, while the model clears a channel to the length of channel 0. The two agree on every buffer a host passes in.
- A buffer with no channels is left out. `getSingleChannelBlock(0)` cannot be called on it, so `ProcessBlock` requires at least one channel.
- Processor.ProcessBlock: its contract covers channels 1 and up and the coefficients. What channel 0 becomes is stated by `Processor.ChannelZeroFilteredTwice`.

## Findings

| source | as written | input that shows it | evidently intended | confidence | as-written member | corrected member |
|---|---|---|---|---|---|---|
| Source/PluginProcessor.cpp:117-140 (and the same switch at 206-229) | no pitched `case` ends in `break`, so control falls through to the B4 line and every pitched note is filtered at 493.88 Hz | note index 1 (C4): resolved frequency 493.88 Hz, not 261.63 Hz | each case ends with `break`, so each note gets its own frequency | high, not executed | Resolver.PitchedNotesCollapse | Resolver.ResolveCorrected |
| Source/PluginProcessor.cpp:239-240 | both processing contexts wrap channel 0, so channel 0 is filtered twice and channel 1 passes through untouched | stereo block [[1.0],[1.0]] with a filter that doubles each sample: output [[4.0],[1.0]] | the right context wraps channel 1, so each channel is filtered once by its own chain: [[2.0],[2.0]] | high, not executed | Processor.RoutingCounterexample | Processor.ProcessBlockStereo |

`Resolver.Resolve` and `Processor.ProcessBlock` model the code as written. Their lemmas describe the plugin as it behaves. The corrected members sit beside them with the intended properties proved: `Resolver.ResolveCorrected` and `Resolver.CorrectedIsInjective` for the switch, and `Processor.ProcessBlockStereo` and `Processor.StereoRoutingFiltersEachChannelOnce` for the routing.
