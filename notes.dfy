/** Conversions between written note names and MIDI note numbers used when
    the vocal-range tables were derived (analyze_ranges.py). */
module Notes {
  import opened Base

  /** Semitone value of each natural step within its octave. */
  const NoteValues: map<string, int> :=
    map["C" := 0, "D" := 2, "E" := 4, "F" := 5, "G" := 7, "A" := 9, "B" := 11]

  /** Sharp-only names of the twelve pitch classes, indexed by `midi % 12`. */
  const NoteNames: seq<string> :=
    ["C", "C#", "D", "D#", "E", "F", "F#", "G", "G#", "A", "A#", "B"]

  /** `note_to_midi(step, octave, alter)`; a step outside C..B raises KeyError, here None. */
  function NoteToMidi(step: string, octave: int, alter: int): (r: Option<int>)
    ensures r.Some? <==> step in NoteValues
  {
    if step in NoteValues then Some((octave + 1) * 12 + NoteValues[step] + alter) else None
  }

  /** The name index `midi % 12` and the octave `midi // 12 - 1`. */
  function NoteIndex(midi: int): (i: int)
    ensures 0 <= i < 12
  {
    midi % 12
  }

  function OctaveOf(midi: int): int {
    midi / 12 - 1
  }

  /** `midi_to_note_name(midi)`: sharp-spelled name followed by the octave number. Python's
      `//` and `%` floor, which for the divisor 12 is what Dafny's `/` and `%` do. */
  function MidiToNoteName(midi: int): (name: string)
    ensures name == NoteNames[midi % 12] + IntToString(midi / 12 - 1)
  {
    NoteNames[NoteIndex(midi)] + IntToString(OctaveOf(midi))
  }

  /** Natural step values rise strictly from C to B and stay within one octave. */
  lemma StepValuesAscending()
    ensures 0 <= NoteValues["C"] < NoteValues["D"] < NoteValues["E"] < NoteValues["F"]
            < NoteValues["G"] < NoteValues["A"] < NoteValues["B"] <= 11
    ensures forall s :: s in NoteValues ==> 0 <= NoteValues[s] <= 11
  {
  }

  /** One octave up adds exactly twelve semitones. */
  lemma OctaveAddsTwelve(step: string, octave: int, alter: int)
    requires step in NoteValues
    ensures NoteToMidi(step, octave + 1, alter).value == NoteToMidi(step, octave, alter).value + 12
  {
  }

  /** An alteration shifts the result by exactly that many semitones. */
  lemma AlterShifts(step: string, octave: int, alter: int)
    requires step in NoteValues
    ensures NoteToMidi(step, octave, alter).value == NoteToMidi(step, octave, 0).value + alter
  {
  }

  /** Spelling of each name: a natural letter plus one semitone per sharp. */
  lemma NameSpelling(i: int)
    requires 0 <= i < 12
    ensures var n := NoteNames[i];
            && (|n| == 1 || (|n| == 2 && n[1] == '#'))
            && n[..1] in NoteValues && NoteValues[n[..1]] + |n| - 1 == i
  {
    if i == 0 {
      assert NoteNames[0] == "C" && NoteNames[0][..1] == "C";
    } else if i == 1 {
      assert NoteNames[1] == "C#" && NoteNames[1][..1] == "C";
    } else if i == 2 {
      assert NoteNames[2] == "D" && NoteNames[2][..1] == "D";
    } else if i == 3 {
      assert NoteNames[3] == "D#" && NoteNames[3][..1] == "D";
    } else if i == 4 {
      assert NoteNames[4] == "E" && NoteNames[4][..1] == "E";
    } else if i == 5 {
      assert NoteNames[5] == "F" && NoteNames[5][..1] == "F";
    } else if i == 6 {
      assert NoteNames[6] == "F#" && NoteNames[6][..1] == "F";
    } else if i == 7 {
      assert NoteNames[7] == "G" && NoteNames[7][..1] == "G";
    } else if i == 8 {
      assert NoteNames[8] == "G#" && NoteNames[8][..1] == "G";
    } else if i == 9 {
      assert NoteNames[9] == "A" && NoteNames[9][..1] == "A";
    } else if i == 10 {
      assert NoteNames[10] == "A#" && NoteNames[10][..1] == "A";
    } else if i == 11 {
      assert NoteNames[11] == "B" && NoteNames[11][..1] == "B";
    }
  }

  /** Euclidean division by twelve of an octave base plus an in-octave value. */
  lemma DivTwelve(q: int, v: int)
    requires 0 <= v < 12
    ensures (q * 12 + v) / 12 == q && (q * 12 + v) % 12 == v
  {
  }

  /** Naming a natural note spelled with step and octave gives back that step and octave. */
  lemma NaturalNameRoundTrip(step: string, octave: int)
    requires step in NoteValues
    ensures MidiToNoteName(NoteToMidi(step, octave, 0).value) == step + IntToString(octave)
  {
    var v := NoteValues[step];
    var m := (octave + 1) * 12 + v;
    DivTwelve(octave + 1, v);
    assert NoteIndex(m) == v && OctaveOf(m) == octave;
    assert NoteNames[v] == step;
  }

  /** Reading a printed name back (letter, octave, one semitone per sharp) recovers the MIDI number. */
  lemma PrintedNameRoundTrip(midi: int)
    ensures var n := NoteNames[NoteIndex(midi)];
            NoteToMidi(n[..1], OctaveOf(midi), |n| - 1) == Some(midi)
  {
    var q, r := midi / 12, midi % 12;
    NameSpelling(r);
    assert midi == q * 12 + r;
  }
}
