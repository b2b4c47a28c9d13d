/**
 The plugin's single host parameter, "Note", and the snapshot the audio thread takes of it.

 The parameter is a choice over thirteen labels; the host stores the selected index, and
 `getChainSettings` casts that index to the `Notes` enum and keeps it in an `int` field.
 The atomic load is modelled as the index it returns.
 */
module Parameters {
  import opened Wrappers
  import Notes
  import Resolver

  /** `ChainSettings`: a gain that nothing ever sets, and the note ordinal. */
  datatype ChainSettings = ChainSettings(peakGainInDecibels: int, note: int)

  /** A default-constructed `ChainSettings`. */
  const DefaultSettings: ChainSettings := ChainSettings(0, Notes.Ordinal(Notes.Bypass))

  /** A choice parameter: identifier, display name, labels and the index selected at start-up. */
  datatype ChoiceParameter = ChoiceParameter(id: string, name: string, choices: seq<string>, defaultIndex: int)

  datatype ParameterLayout = ParameterLayout(parameters: seq<ChoiceParameter>)

  /**
   `createParameterLayout`: one parameter "Note" whose labels are the enum's names in
   declaration order, so label `i` names the note whose ordinal is `i`; it starts on Bypass.
   */
  function CreateParameterLayout(): (layout: ParameterLayout)
    ensures |layout.parameters| == 1
    ensures layout.parameters[0].id == "Note" && layout.parameters[0].name == "Note"
    ensures |layout.parameters[0].choices| == Notes.Count
    ensures forall i :: 0 <= i < |layout.parameters[0].choices| ==>
      layout.parameters[0].choices[i] == Notes.Name(Notes.FromOrdinal(i).value)
    ensures Notes.FromOrdinal(layout.parameters[0].defaultIndex) == Some(Notes.Bypass)
  {
    var labels := ["Bypass", "C4", "Db4", "D4", "Eb4", "E4", "F4", "Gb4", "G4", "Ab4", "A4", "Bb4", "B4"];
    ParameterLayout([ChoiceParameter("Note", "Note", labels, 0)])
  }

  /**
   `getChainSettings`: a default `ChainSettings` whose note is overwritten with the stored
   choice index; the gain field keeps its default.
   */
  function GetChainSettings(choiceIndex: int): (s: ChainSettings)
    ensures s.note == choiceIndex
    ensures s.peakGainInDecibels == DefaultSettings.peakGainInDecibels
  {
    DefaultSettings.(note := choiceIndex)
  }

  /** A default `ChainSettings` selects Bypass with a gain of 0 dB. */
  lemma DefaultSettingsAreBypass()
    ensures Notes.FromOrdinal(DefaultSettings.note) == Some(Notes.Bypass)
    ensures DefaultSettings.peakGainInDecibels == 0
  {
  }

  /**
   Choosing the label of note `n` in the host stores exactly the index that the audio
   thread reads back as `n`: label and enumerator agree at every index, and at no other.
   */
  lemma ChoiceSelectsNamedNote(n: Notes.Note, i: int)
    requires 0 <= i < Notes.Count
    ensures CreateParameterLayout().parameters[0].choices[i] == Notes.Name(n) <==> i == Notes.Ordinal(n)
    ensures Notes.FromOrdinal(GetChainSettings(i).note).Some?
    ensures Notes.FromOrdinal(GetChainSettings(i).note).value == n <==> i == Notes.Ordinal(n)
  {
  }

  /** The parameter's start-up value resolves to the Bypass design: 0 dB at 20 Hz with Q 10. */
  lemma DefaultChoiceBypasses()
    ensures Resolver.Resolve(GetChainSettings(CreateParameterLayout().parameters[0].defaultIndex).note)
      == Resolver.PeakDesign(2000, 10, 0)
  {
  }
}
