/**
 The note resolver: the `switch (chainSettings.note)` that `prepareToPlay` and
 `processBlock` both run to pick the peak filter's design parameters.

 The switch is modelled literally, as C++ executes it: the case whose label equals the
 scrutinee is found, and control runs from that label through every later case body
 until a `break` or the end of the switch. If no label matches and there is no
 `default:`, nothing runs. Frequencies are hundredths of a hertz, gains are decibels
 (not linear amplitude), and Q is the exact integer the source writes as `10.f`.
 */
module Resolver {
  import opened Wrappers
  import Notes

  /** The design parameters handed to the peak filter designer. */
  datatype PeakDesign = PeakDesign(centiHz: int, quality: int, gainDb: int)

  /** One statement of a case body. */
  datatype Stmt =
    | AssignFrequency(centiHz: int)
    | AssignGainDb(db: int)
    | Break

  /** A `case <label>:` clause and the statements written under it. */
  datatype Case = Case(labelValue: int, body: seq<Stmt>)

  type Switch = seq<Case>

  /** The values assigned before the switch: 20 Hz, Q 10, +24 dB. */
  const Defaults: PeakDesign := PeakDesign(2000, 10, 24)

  /** The switch exactly as written in both `prepareToPlay` and `processBlock`. */
  const NoteSwitch: Switch := [
    Case(0, [AssignGainDb(0), Break]),
    Case(1, [AssignFrequency(26163)]),
    Case(2, [AssignFrequency(27718)]),
    Case(3, [AssignFrequency(29366)]),
    Case(4, [AssignFrequency(31113)]),
    Case(5, [AssignFrequency(32963)]),
    Case(6, [AssignFrequency(34923)]),
    Case(7, [AssignFrequency(36999)]),
    Case(8, [AssignFrequency(39200)]),
    Case(9, [AssignFrequency(41530)]),
    Case(10, [AssignFrequency(44000)]),
    Case(11, [AssignFrequency(46616)]),
    Case(12, [AssignFrequency(49388)])
  ]

  /** The same switch with a `break` closing every case, which is what the table of notes intends. */
  const CorrectedSwitch: Switch := [
    Case(0, [AssignGainDb(0), Break]),
    Case(1, [AssignFrequency(26163), Break]),
    Case(2, [AssignFrequency(27718), Break]),
    Case(3, [AssignFrequency(29366), Break]),
    Case(4, [AssignFrequency(31113), Break]),
    Case(5, [AssignFrequency(32963), Break]),
    Case(6, [AssignFrequency(34923), Break]),
    Case(7, [AssignFrequency(36999), Break]),
    Case(8, [AssignFrequency(39200), Break]),
    Case(9, [AssignFrequency(41530), Break]),
    Case(10, [AssignFrequency(44000), Break]),
    Case(11, [AssignFrequency(46616), Break]),
    Case(12, [AssignFrequency(49388), Break])
  ]

  predicate NoBreak(stmts: seq<Stmt>) {
    forall i :: 0 <= i < |stmts| ==> !stmts[i].Break?
  }

  predicate OnlyFrequencies(stmts: seq<Stmt>) {
    forall i :: 0 <= i < |stmts| ==> stmts[i].AssignFrequency?
  }

  /** Runs statements in order from the first, stopping at the first `break`. */
  function Exec(stmts: seq<Stmt>, d: PeakDesign): (r: PeakDesign)
    ensures r.quality == d.quality
    ensures OnlyFrequencies(stmts) ==> r.gainDb == d.gainDb
    decreases |stmts|
  {
    if stmts == [] then d
    else match stmts[0]
      case Break => d
      case AssignFrequency(f) => Exec(stmts[1..], d.(centiHz := f))
      case AssignGainDb(g) => Exec(stmts[1..], d.(gainDb := g))
  }

  /** The statements control passes through when it enters the switch at case `i`: that case's body and every later one. */
  function FallFrom(sw: Switch, i: nat): (stmts: seq<Stmt>)
    requires i <= |sw|
    decreases |sw| - i
  {
    if i == |sw| then [] else sw[i].body + FallFrom(sw, i + 1)
  }

  /** The first case whose label equals `v`, or None when no label does. */
  function MatchIndex(sw: Switch, v: int): (r: Option<nat>)
    ensures r.Some? ==> r.value < |sw| && sw[r.value].labelValue == v
    ensures r.Some? ==> forall j :: 0 <= j < r.value ==> sw[j].labelValue != v
    ensures r.None? <==> forall j :: 0 <= j < |sw| ==> sw[j].labelValue != v
  {
    if sw == [] then None
    else if sw[0].labelValue == v then Some(0)
    else match MatchIndex(sw[1..], v)
      case None => None
      case Some(k) => Some(k + 1)
  }

  /**
   Executes `switch (v)` over `sw`, starting from the values `d` set before it. No case
   assigns Q, so Q keeps its value; when no label equals `v`, nothing changes at all.
   */
  function RunSwitch(sw: Switch, v: int, d: PeakDesign): (r: PeakDesign)
    ensures r.quality == d.quality
    ensures (forall j :: 0 <= j < |sw| ==> sw[j].labelValue != v) ==> r == d
  {
    match MatchIndex(sw, v)
    case None => d
    case Some(i) => Exec(FallFrom(sw, i), d)
  }

  /**
   The parameters `prepareToPlay` and `processBlock` compute for the stored note value:
   Q is always 10; Bypass gives 0 dB at the 20 Hz placeholder; every pitched note falls
   through to the B4 line and gives 493.88 Hz at +24 dB; any other value matches no label
   and keeps both defaults.
   */
  function Resolve(note: int): (d: PeakDesign)
    ensures d.quality == 10
    ensures note == Notes.Ordinal(Notes.Bypass) ==> d == PeakDesign(2000, 10, 0)
    ensures 1 <= note <= 12 ==> d == PeakDesign(49388, 10, 24)
    ensures note < 0 || note > 12 ==> d == Defaults
  {
    var d := RunSwitch(NoteSwitch, note, Defaults);
    ResolveCases(note);
    d
  }

  /** The switch with `break`s added: each note gets its own frequency. */
  function ResolveCorrected(note: int): (d: PeakDesign)
    ensures d.quality == 10
    ensures forall n: Notes.Note {:trigger Notes.Ordinal(n)} :: note == Notes.Ordinal(n) ==> d == Intended(n)
    ensures note < 0 || note > 12 ==> d == Defaults
  {
    var d := RunSwitch(CorrectedSwitch, note, Defaults);
    CorrectedCases(note);
    d
  }

  // ---------------------------------------------------------------------------------
  // Lemmas about the switch interpreter

  /** Running statements free of `break` one after the other is running their concatenation. */
  lemma {:induction false} ExecAppend(a: seq<Stmt>, b: seq<Stmt>, d: PeakDesign)
    requires NoBreak(a)
    ensures Exec(a + b, d) == Exec(b, Exec(a, d))
    decreases |a|
  {
    if a != [] {
      assert (a + b)[0] == a[0];
      assert (a + b)[1..] == a[1..] + b;
      assert a + b != [];
      match a[0]
      case AssignFrequency(f) =>
        ExecAppend(a[1..], b, d.(centiHz := f));
        assert Exec(a + b, d) == Exec(a[1..] + b, d.(centiHz := f));
      case AssignGainDb(g) =>
        ExecAppend(a[1..], b, d.(gainDb := g));
        assert Exec(a + b, d) == Exec(a[1..] + b, d.(gainDb := g));
    } else {
      assert a + b == b;
    }
  }

  /** After a run of frequency assignments only the last one is visible; Q and gain are untouched. */
  lemma {:induction false} LastFrequencyWins(stmts: seq<Stmt>, d: PeakDesign)
    requires stmts != [] && OnlyFrequencies(stmts)
    ensures Exec(stmts, d) == d.(centiHz := stmts[|stmts| - 1].centiHz)
    decreases |stmts|
  {
    if |stmts| > 1 {
      LastFrequencyWins(stmts[1..], d.(centiHz := stmts[0].centiHz));
    }
  }

  /**
   Entering at case `i` of a switch whose cases from `i` on each assign one frequency and
   nothing else, control passes only frequency assignments, ending with the last case's.
   */
  lemma {:induction false} FallThroughToLast(sw: Switch, i: nat)
    requires i < |sw|
    requires forall j :: i <= j < |sw| ==> |sw[j].body| == 1 && sw[j].body[0].AssignFrequency?
    ensures FallFrom(sw, i) != [] && OnlyFrequencies(FallFrom(sw, i))
    ensures FallFrom(sw, i)[|FallFrom(sw, i)| - 1] == sw[|sw| - 1].body[0]
    decreases |sw| - i
  {
    var all := FallFrom(sw, i);
    assert all == sw[i].body + FallFrom(sw, i + 1);
    if i + 1 == |sw| {
      assert all == sw[i].body;
    } else {
      FallThroughToLast(sw, i + 1);
      var rest := FallFrom(sw, i + 1);
      assert all == [sw[i].body[0]] + rest;
      assert all[|all| - 1] == rest[|rest| - 1];
    }
  }

  /** The pitched cases of the source switch each assign one frequency and nothing else. */
  lemma PitchedCasesAssignOnly()
    ensures forall j :: 1 <= j < |NoteSwitch| ==> |NoteSwitch[j].body| == 1 && NoteSwitch[j].body[0].AssignFrequency?
  {
  }

  /** Every label of both switches is its case's position, which is the note's ordinal. */
  lemma LabelsAreOrdinals()
    ensures |NoteSwitch| == 13 && |CorrectedSwitch| == 13
    ensures forall j :: 0 <= j < 13 ==> NoteSwitch[j].labelValue == j && CorrectedSwitch[j].labelValue == j
  {
  }

  /** In a 13-case switch labelled 0..12 in order, control enters at case `v` exactly when `v` is in 0..12. */
  lemma MatchesOrdinal(sw: Switch, v: int)
    requires |sw| == 13 && forall j :: 0 <= j < 13 ==> sw[j].labelValue == j
    ensures 0 <= v < 13 ==> MatchIndex(sw, v) == Some(v)
    ensures v < 0 || v >= 13 ==> MatchIndex(sw, v) == None
  {
    if 0 <= v < 13 {
      assert sw[v].labelValue == v;
    }
  }

  lemma ResolveCases(note: int)
    ensures RunSwitch(NoteSwitch, note, Defaults).quality == 10
    ensures note == 0 ==> RunSwitch(NoteSwitch, note, Defaults) == PeakDesign(2000, 10, 0)
    ensures 1 <= note <= 12 ==> RunSwitch(NoteSwitch, note, Defaults) == PeakDesign(49388, 10, 24)
    ensures note < 0 || note > 12 ==> RunSwitch(NoteSwitch, note, Defaults) == Defaults
  {
    LabelsAreOrdinals();
    MatchesOrdinal(NoteSwitch, note);
    if note == 0 {
      assert FallFrom(NoteSwitch, 0) == [AssignGainDb(0), Break] + FallFrom(NoteSwitch, 1);
    } else if 1 <= note <= 12 {
      PitchedCasesAssignOnly();
      FallThroughToLast(NoteSwitch, note);
      LastFrequencyWins(FallFrom(NoteSwitch, note), Defaults);
    }
  }

  /** The design the corrected switch is meant to give each note. */
  function Intended(n: Notes.Note): PeakDesign {
    if n == Notes.Bypass then PeakDesign(2000, 10, 0)
    else PeakDesign(Notes.NominalCentiHz(n).value, 10, 24)
  }

  lemma CorrectedCaseBody(n: Notes.Note)
    ensures Notes.IsPitched(n) ==>
      CorrectedSwitch[Notes.Ordinal(n)].body == [AssignFrequency(Notes.NominalCentiHz(n).value), Break]
    ensures n == Notes.Bypass ==> CorrectedSwitch[Notes.Ordinal(n)].body == [AssignGainDb(0), Break]
  {
  }

  lemma FallFromEntry(sw: Switch, i: nat)
    requires i < |sw|
    ensures FallFrom(sw, i) == sw[i].body + FallFrom(sw, i + 1)
  {
  }

  /** A case closed by `break` runs its one assignment and leaves the switch. */
  lemma ExecStopsAtBreak(st: Stmt, rest: seq<Stmt>, d: PeakDesign)
    requires !st.Break?
    ensures Exec([st, Break] + rest, d) == Exec([st], d)
  {
  }

  /** Every case of the corrected switch is one assignment followed by `break`. */
  lemma CorrectedCasesBreak()
    ensures forall j :: 0 <= j < |CorrectedSwitch| ==>
      |CorrectedSwitch[j].body| == 2 && !CorrectedSwitch[j].body[0].Break? && CorrectedSwitch[j].body[1] == Break
  {
  }

  /** Entering a switch at a case of the form `assignment; break` runs only that assignment. */
  lemma EntryAtBreakingCase(sw: Switch, k: nat, d: PeakDesign)
    requires k < |sw| && MatchIndex(sw, k) == Some(k)
    requires |sw[k].body| == 2 && !sw[k].body[0].Break? && sw[k].body[1] == Break
    ensures RunSwitch(sw, k, d) == Exec([sw[k].body[0]], d)
  {
    var body := sw[k].body;
    FallFromEntry(sw, k);
    assert body == [body[0], Break];
    ExecStopsAtBreak(body[0], FallFrom(sw, k + 1), d);
  }

  /** Entering the corrected switch at a note's label runs only that case's first statement. */
  lemma CorrectedEntry(k: int)
    requires 0 <= k < 13
    ensures RunSwitch(CorrectedSwitch, k, Defaults) == Exec([CorrectedSwitch[k].body[0]], Defaults)
  {
    LabelsAreOrdinals();
    MatchesOrdinal(CorrectedSwitch, k);
    CorrectedCasesBreak();
    EntryAtBreakingCase(CorrectedSwitch, k, Defaults);
  }

  lemma CorrectedResolvesNote(n: Notes.Note)
    ensures RunSwitch(CorrectedSwitch, Notes.Ordinal(n), Defaults) == Intended(n)
  {
    var k := Notes.Ordinal(n);
    CorrectedEntry(k);
    CorrectedCaseBody(n);
    if n == Notes.Bypass {
      assert CorrectedSwitch[k].body[0] == AssignGainDb(0);
      assert Exec([AssignGainDb(0)], Defaults) == Exec([], Defaults.(gainDb := 0));
    } else {
      var f := Notes.NominalCentiHz(n).value;
      assert CorrectedSwitch[k].body[0] == AssignFrequency(f);
      assert Exec([AssignFrequency(f)], Defaults) == Exec([], Defaults.(centiHz := f));
    }
  }

  lemma CorrectedCases(note: int)
    ensures RunSwitch(CorrectedSwitch, note, Defaults).quality == 10
    ensures forall n: Notes.Note {:trigger Notes.Ordinal(n)} :: note == Notes.Ordinal(n) ==>
      RunSwitch(CorrectedSwitch, note, Defaults) == Intended(n)
    ensures note < 0 || note > 12 ==> RunSwitch(CorrectedSwitch, note, Defaults) == Defaults
  {
    LabelsAreOrdinals();
    MatchesOrdinal(CorrectedSwitch, note);
    forall n: Notes.Note | note == Notes.Ordinal(n)
      ensures RunSwitch(CorrectedSwitch, note, Defaults) == Intended(n)
    {
      CorrectedResolvesNote(n);
    }
    if 0 <= note <= 12 {
      CorrectedResolvesNote(Notes.FromOrdinal(note).value);
    }
  }

  // ---------------------------------------------------------------------------------
  // Properties of the resolver

  /**
   The fall-through collapses the table: a pitched note gets its own nominal frequency
   from the source switch only when it is B4, the last label.
   */
  lemma PitchedNotesCollapse(n: Notes.Note)
    requires Notes.IsPitched(n)
    ensures Resolve(Notes.Ordinal(n)).centiHz == Notes.NominalCentiHz(n).value <==> n == Notes.B4
    ensures Resolve(Notes.Ordinal(Notes.C4)).centiHz != Notes.NominalCentiHz(Notes.C4).value
  {
  }

  /** The source switch writes the nominal table correctly; it differs from the corrected switch only in the missing `break`s. */
  lemma SourceTableIsNominal(n: Notes.Note)
    requires Notes.IsPitched(n)
    ensures NoteSwitch[Notes.Ordinal(n)].body == [AssignFrequency(Notes.NominalCentiHz(n).value)]
    ensures CorrectedSwitch[Notes.Ordinal(n)].body == NoteSwitch[Notes.Ordinal(n)].body + [Break]
  {
  }

  /** With the `break`s in place distinct notes resolve to distinct designs, and every pitched note gets +24 dB. */
  lemma CorrectedIsInjective(a: Notes.Note, b: Notes.Note)
    ensures ResolveCorrected(Notes.Ordinal(a)) == ResolveCorrected(Notes.Ordinal(b)) <==> a == b
    ensures Notes.IsPitched(a) <==> ResolveCorrected(Notes.Ordinal(a)).gainDb == 24
  {
    if Notes.IsPitched(a) && Notes.IsPitched(b) {
      Notes.NominalFrequencyAscending(a, b);
    }
    Notes.NominalFrequencyInOctave(a);
    Notes.NominalFrequencyInOctave(b);
  }

  /** Both resolvers agree on Bypass and on B4, and on every value that names no note. */
  lemma ResolversAgreeOutsideFallThrough(note: int)
    ensures note == 0 || note == 12 || note < 0 || note > 12 ==> Resolve(note) == ResolveCorrected(note)
    ensures 1 <= note < 12 ==> Resolve(note).centiHz > ResolveCorrected(note).centiHz
  {
    if 0 <= note <= 12 {
      var n := Notes.FromOrdinal(note).value;
      Notes.NominalFrequencyInOctave(n);
      if 1 <= note < 12 {
        Notes.NominalFrequencyAscending(n, Notes.B4);
      }
    }
  }
}
