/**
 The `Notes` enumeration of the plugin: Bypass followed by the twelve semitones of the
 fourth octave, C4 .. B4. As a C++ unscoped enum its constants carry the ordinals 0 .. 12
 in declaration order; the processor stores and switches on that ordinal as a plain `int`.
 */
module Notes {
  import opened Wrappers

  datatype Note = Bypass | C4 | Db4 | D4 | Eb4 | E4 | F4 | Gb4 | G4 | Ab4 | A4 | Bb4 | B4

  /** Number of enumerators. */
  const Count: nat := 13

  /** Every note, in declaration order. */
  const AllNotes: seq<Note> := [Bypass, C4, Db4, D4, Eb4, E4, F4, Gb4, G4, Ab4, A4, Bb4, B4]

  predicate IsPitched(n: Note) {
    n != Bypass
  }

  /** The integer value the compiler gives each enumerator. */
  function Ordinal(n: Note): (k: nat)
    ensures k < Count
    ensures k == 0 <==> n == Bypass
  {
    match n
    case Bypass => 0
    case C4 => 1
    case Db4 => 2
    case D4 => 3
    case Eb4 => 4
    case E4 => 5
    case F4 => 6
    case Gb4 => 7
    case G4 => 8
    case Ab4 => 9
    case A4 => 10
    case Bb4 => 11
    case B4 => 12
  }

  /** The enumerator whose value is `k`, if there is one. */
  function FromOrdinal(k: int): (r: Option<Note>)
    ensures r.Some? <==> 0 <= k < Count
    ensures r.Some? ==> Ordinal(r.value) == k
  {
    if 0 <= k < Count then Some(AllNotes[k]) else None
  }

  /** Position in the chromatic scale as a MIDI key number (C4 = 60); Bypass has none. */
  function MidiKey(n: Note): Option<nat> {
    match n
    case Bypass => None
    case C4 => Some(60)
    case Db4 => Some(61)
    case D4 => Some(62)
    case Eb4 => Some(63)
    case E4 => Some(64)
    case F4 => Some(65)
    case Gb4 => Some(66)
    case G4 => Some(67)
    case Ab4 => Some(68)
    case A4 => Some(69)
    case Bb4 => Some(70)
    case B4 => Some(71)
  }

  /** The label the plugin shows for each note. */
  function Name(n: Note): string {
    match n
    case Bypass => "Bypass"
    case C4 => "C4"
    case Db4 => "Db4"
    case D4 => "D4"
    case Eb4 => "Eb4"
    case E4 => "E4"
    case F4 => "F4"
    case Gb4 => "Gb4"
    case G4 => "G4"
    case Ab4 => "Ab4"
    case A4 => "A4"
    case Bb4 => "Bb4"
    case B4 => "B4"
  }

  /**
   The equal-tempered frequency of each pitched note, in hundredths of a hertz, rounded to
   two decimals as written in the processor's switch. Bypass has no frequency.
   */
  function NominalCentiHz(n: Note): Option<nat> {
    match n
    case Bypass => None
    case C4 => Some(26163)
    case Db4 => Some(27718)
    case D4 => Some(29366)
    case Eb4 => Some(31113)
    case E4 => Some(32963)
    case F4 => Some(34923)
    case Gb4 => Some(36999)
    case G4 => Some(39200)
    case Ab4 => Some(41530)
    case A4 => Some(44000)
    case Bb4 => Some(46616)
    case B4 => Some(49388)
  }

  /** `AllNotes` lists each enumerator exactly once, at the index equal to its ordinal. */
  lemma AllNotesInOrdinalOrder()
    ensures |AllNotes| == Count
    ensures forall i :: 0 <= i < |AllNotes| ==> Ordinal(AllNotes[i]) == i
    ensures forall n: Note :: n in AllNotes
  {
    forall n: Note ensures n in AllNotes {
      assert AllNotes[Ordinal(n)] == n;
    }
  }

  /** Ordinals and enumerators correspond one to one. */
  lemma OrdinalRoundTrip(n: Note, k: int)
    ensures FromOrdinal(Ordinal(n)) == Some(n)
    ensures FromOrdinal(k).Some? ==> Ordinal(FromOrdinal(k).value) == k
  {
  }

  /** The ordinals follow the semitones: each pitched note is one semitone above its predecessor. */
  lemma OrdinalsAscendBySemitone(n: Note)
    ensures IsPitched(n) <==> MidiKey(n).Some?
    ensures IsPitched(n) ==> MidiKey(n).value == 59 + Ordinal(n)
  {
  }

  /** The nominal frequencies rise strictly with the ordinal, so no two pitched notes share one. */
  lemma NominalFrequencyAscending(a: Note, b: Note)
    requires IsPitched(a) && IsPitched(b)
    ensures NominalCentiHz(a).Some? && NominalCentiHz(b).Some?
    ensures Ordinal(a) < Ordinal(b) <==> NominalCentiHz(a).value < NominalCentiHz(b).value
    ensures a == b <==> NominalCentiHz(a).value == NominalCentiHz(b).value
  {
  }

  /** Every nominal frequency lies within the fourth octave, from C4 up to B4. */
  lemma NominalFrequencyInOctave(n: Note)
    ensures IsPitched(n) <==> NominalCentiHz(n).Some?
    ensures IsPitched(n) ==> 26163 <= NominalCentiHz(n).value <= 49388
  {
  }

  /** No two notes share a label. */
  lemma NamesDistinct(a: Note, b: Note)
    ensures Name(a) == Name(b) <==> a == b
  {
  }
}
