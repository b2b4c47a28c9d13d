/**
 Bus layouts and the check `isBusesLayoutSupported`, for the effect build (neither a
 synth nor a MIDI effect), which is the build the processor's constructor declares:
 one stereo input bus and one stereo output bus.

 A channel set is the set of speaker positions it carries; two channel sets are equal
 when they carry the same positions. A missing bus reads as the empty ("disabled") set.
 */
module BusLayout {

  datatype ChannelType =
    | Left | Right | Centre | LFE | LeftSurround | RightSurround
    | Discrete(index: nat)

  datatype ChannelSet = ChannelSet(channels: set<ChannelType>)

  datatype BusesLayout = BusesLayout(inputBuses: seq<ChannelSet>, outputBuses: seq<ChannelSet>)

  function Disabled(): ChannelSet {
    ChannelSet({})
  }

  function Mono(): ChannelSet {
    ChannelSet({Centre})
  }

  function Stereo(): ChannelSet {
    ChannelSet({Left, Right})
  }

  function Size(cs: ChannelSet): nat {
    |cs.channels|
  }

  /** The channel set of bus `index`, or the disabled set when there is no such bus. */
  function BusOrDisabled(buses: seq<ChannelSet>, index: nat): ChannelSet {
    if index < |buses| then buses[index] else Disabled()
  }

  function MainInput(l: BusesLayout): ChannelSet {
    BusOrDisabled(l.inputBuses, 0)
  }

  function MainOutput(l: BusesLayout): ChannelSet {
    BusOrDisabled(l.outputBuses, 0)
  }

  /** Channels over all buses of one direction, as `getTotalNumInputChannels` counts them. */
  function TotalChannels(buses: seq<ChannelSet>): (n: nat)
    ensures |buses| == 1 ==> n == Size(buses[0])
    ensures buses == [] ==> n == 0
  {
    if buses == [] then 0 else Size(buses[0]) + TotalChannels(buses[1..])
  }

  /** The channel total over two groups of buses is the sum of their totals. */
  lemma {:induction false} TotalChannelsAppend(a: seq<ChannelSet>, b: seq<ChannelSet>)
    ensures TotalChannels(a + b) == TotalChannels(a) + TotalChannels(b)
    decreases |a|
  {
    if a == [] {
      assert a + b == b;
    } else {
      TotalChannelsAppend(a[1..], b);
      assert (a + b)[1..] == a[1..] + b;
    }
  }

  /** The layout the processor declares when it is constructed: stereo in, stereo out. */
  function DefaultLayout(): BusesLayout {
    BusesLayout([Stereo()], [Stereo()])
  }

  /**
   `isBusesLayoutSupported`: the main output must be mono or stereo, and the main input
   must carry exactly the main output's channels. Other buses are not looked at.
   */
  function IsBusesLayoutSupported(l: BusesLayout): (ok: bool)
    ensures ok <==> (MainOutput(l) == Mono() || MainOutput(l) == Stereo()) && MainInput(l) == MainOutput(l)
    ensures ok ==> Size(MainInput(l)) == Size(MainOutput(l)) && 1 <= Size(MainOutput(l)) <= 2
  {
    if MainOutput(l) != Mono() && MainOutput(l) != Stereo() then
      false
    else if MainOutput(l) != MainInput(l) then
      false
    else
      assert |{Left, Right}| == 2;
      true
  }

  /**
   Which layouts pass, by example and by consequence: the declared default passes; a
   layout missing its main input is refused; and an accepted layout made of its main
   buses only has as many input channels in total as output channels, one or two.
   */
  lemma SupportedLayouts(l: BusesLayout)
    ensures IsBusesLayoutSupported(DefaultLayout())
    ensures IsBusesLayoutSupported(BusesLayout([Mono()], [Mono()]))
    ensures !IsBusesLayoutSupported(BusesLayout([], [Stereo()]))
    ensures !IsBusesLayoutSupported(BusesLayout([Mono()], [Stereo()]))
    ensures !IsBusesLayoutSupported(BusesLayout([Disabled()], [Disabled()]))
    ensures IsBusesLayoutSupported(l) && |l.inputBuses| == 1 && |l.outputBuses| == 1 ==>
      TotalChannels(l.inputBuses) == TotalChannels(l.outputBuses) && 1 <= TotalChannels(l.outputBuses) <= 2
  {
  }
}
