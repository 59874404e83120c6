# Sacred Harp chord analyzer, modelled in Dafny

The analyzer reads a MIDI file compiled from a LilyPond shape-note score. It rates
the chords and warns about voice-leading problems against the conventions of Sacred
Harp singing, writing its findings to a log. Optionally it reads the LilyPond source,
to report the written mode, undo a `\transpose` directive and point warnings at
source lines.

The model covers the analyzer class and its checks, plus the two note-name
conversions of the range-analysis script:

- **Base**: Python's `None`, `sorted(set(...))` over small integer ranges, `strip`
  and `rstrip`, decimal rendering, `' - '.join` and the `in` test on strings.
- **Notes**: `note_to_midi` and `midi_to_note_name`.
- **Chords**: the classifier. The pitches sounding at a beat become pitch classes,
  then scale degrees above the analysis tonic. The degree set is then named by the
  exact triad and dyad table, by a single degree, or by the lowest degree.
- **Rules**: the rule tables of `assess_chord` and the standard progressions
  searched by `analyze_progression`.
- **Lilypond**: the voice-section declarations (`bassA = \relative ...`) and the
  brace counting that finds where each section ends.
- **Directives**: the `\key` and `\transpose` searches of
  `parse_key_and_transposition`, and the normalisation of the transposition.
- **Location**: the estimated source line of a warning
  (`get_lilypond_location`) and the context lines around it
  (`get_context_from_lilypond`).
- **Timeline**: the meter that `load_midi` derives from the first time signature,
  and `analyze_chords`, which walks the score beat by beat.
- **VoiceLeading**: the pitch of each voice at a beat, the adjacent-degree and
  crossing warnings, and the critical and extreme range warnings.
- **VocalFatigue**: the sliding-window fatigue check.
- **Motion**: the contrary-motion check.
- **Analyzer**: the class `SacredHarpAnalyzer`. Its fields are the ones the loaders
  set. Its methods are `__init__`, `load_lilypond_source`, `load_midi` and
  `run_analysis`, with the lines `run_analysis` logs.

The methods follow the loops of the source. Each method is proved equal to a
specification function. The lemmas state what those functions mean:

- which tier rates a chord;
- that the search for a directive finds the leftmost one;
- that a recorded section holds exactly its own lines;
- that the analysed beats come in offset order;
- that each window warning is reported once;
- how the log of a run is shaped.

The parsed score is an abstraction of music21. `Score.highestTime` is its length.
`Score.sounding(offset)` gives the elements of each part that overlap the half-beat
window `getElementsByOffset(offset, offset + 0.5, ...)`. The key found by
`analyze('key')` and the first time signature are parts of the MIDI input.

Three behaviours of the code worth noting; the model follows the code in each:

- The pitch of a voice at a beat is the pitch of the LAST pitched element of its part
  that overlaps the window. Each element overwrites the one before.
- The normalised transposition lies in the closed range [-6, 6]. A tritone up stays
  +6 and a tritone down stays -6.
- The fix suggestion of a range warning is appended only when a source location
  exists.

Quirks of the code that the model keeps and proves:

- In the minor mode, every triad and dyad of the exact table is named with the
  major-style numerals (I, vi, V, ...). No minor tier lists those numerals, so such
  chords are rated UNKNOWN (`Rules.MinorTableChordsUnknown`).
- The progression search matches raw text. "VII - vi - V - I" is reported as
  containing I - vi - V - I (`Rules.RawSubstringMatch`).
- The forbidden-chord scan skips the last chord of the progression
  (`Rules.FinalViiNotReported`).
- A line that holds a `\key` directive is never searched for `\transpose`
  (`Directives.KeyLineSkipsTranspose`).
- A section declaration whose brace count returns to zero through an opening brace
  is abandoned without being recorded (`Lilypond.ReopenedUnrecorded`).
- The bass has no EXTREME-low warning, because its critical and absolute lows
  coincide (`VoiceLeading.BassNeverTooLow`).

## Model

| member | source | states |
|---|---|---|
| Base.Ascending | analysis/sacred_harp_analyzer.py:408-422 | the listing holds exactly the values of the input in range, each once, in strictly ascending order |
| Base.AscendingEmpty | analysis/sacred_harp_analyzer.py:422-425 | the ascending listing is empty iff no input value lies in range |
| Base.AscendingExtensional | analysis/sacred_harp_analyzer.py:409 | the listing depends only on which values occur, not on order or repetition |
| Base.RStrip | analysis/sacred_harp_analyzer.py:170 | `rstrip` never lengthens a line |
| Base.RStripMeaning | analysis/sacred_harp_analyzer.py:170 | `rstrip` keeps a prefix that ends in a non-space, and everything dropped is whitespace |
| Base.LStrip | analysis/sacred_harp_analyzer.py:158 | `lstrip` never lengthens a line |
| Base.LStripMeaning | analysis/sacred_harp_analyzer.py:158 | `lstrip` keeps a suffix that starts with a non-space, and everything dropped is whitespace |
| Base.RStripAll | analysis/sacred_harp_analyzer.py:170 | the section content is the section's lines, one for one, each right-stripped |
| Base.NatToString | analysis/sacred_harp_analyzer.py:472 | a decimal spelling is non-empty and made of digits |
| Base.NatToStringInjective | analysis/sacred_harp_analyzer.py:472 | different naturals have different decimal spellings |
| Base.IntToString | analysis/sacred_harp_analyzer.py:472 | a spelling starts with '-' iff the number is negative |
| Base.IntToStringInjective | analysis/sacred_harp_analyzer.py:472-482 | different degrees get different "?d" names |
| Base.JoinAppend | analysis/sacred_harp_analyzer.py:896-899 | joining two non-empty lists puts exactly one separator between their joins |
| Base.JoinFour | analysis/sacred_harp_analyzer.py:901 | the text of a four-chord standard progression is its names with a separator between each pair |
| Base.ContainsIff | analysis/sacred_harp_analyzer.py:901 | the `in` test on strings holds iff the needle occurs at some position |
| Base.ContainsMiddle | analysis/sacred_harp_analyzer.py:901 | a text occurs in any text built around it |
| Base.JoinOfRunContained | analysis/sacred_harp_analyzer.py:899-901 | the joined text of any contiguous run of chords occurs in the joined progression |
| Notes.NoteToMidi | analyze_ranges.py:10-13 | a result exists iff the step is one of C..B (otherwise KeyError) |
| Notes.NoteIndex | analyze_ranges.py:17-19 | the name index `midi % 12` always selects one of the twelve names |
| Notes.MidiToNoteName | analyze_ranges.py:15-20 | the name is the sharp-spelled name at index `midi % 12` followed by the octave `midi // 12 - 1` (floor division) |
| Notes.StepValuesAscending | analyze_ranges.py:12 | the natural step values rise strictly from C to B within one octave |
| Notes.OctaveAddsTwelve | analyze_ranges.py:13 | one octave up adds exactly twelve semitones |
| Notes.AlterShifts | analyze_ranges.py:13 | an alteration shifts the MIDI number by exactly that many semitones |
| Notes.NameSpelling | analyze_ranges.py:17 | each of the twelve names is a natural letter plus one '#' per semitone above it |
| Notes.NaturalNameRoundTrip | analyze_ranges.py:10-20 | naming the MIDI number of a natural note gives back its step and octave |
| Notes.PrintedNameRoundTrip | analyze_ranges.py:10-20 | reading a printed name back (letter, octave, sharps as alteration) recovers the MIDI number |
| Chords.Name | analysis/sacred_harp_analyzer.py:108-116 | every numeral has a non-empty spelling |
| Chords.SoundingPitchesMembers | analysis/sacred_harp_analyzer.py:377-395 | a pitch is collected iff some element of some part carries it |
| Chords.PartPitchesMembers | analysis/sacred_harp_analyzer.py:386-395 | a pitch is collected from a part iff one of its elements carries it |
| Chords.GatherPitches | analysis/sacred_harp_analyzer.py:379-395 | the collecting loop gathers every pitch of every element of every part, in order |
| Chords.DegreeOf | analysis/sacred_harp_analyzer.py:416-420 | a diatonic pitch class has a degree in 1..7 |
| Chords.PitchClasses | analysis/sacred_harp_analyzer.py:408 | the pitch-class list has one class per pitch |
| Chords.DegreeListMembers | analysis/sacred_harp_analyzer.py:415-420 | a degree is collected iff some pitch class of the list has that degree |
| Chords.SignatureMembers | analysis/sacred_harp_analyzer.py:438 | the signature flags say exactly which degrees, and whether any value outside 1..7, occur |
| Chords.SignatureIff | analysis/sacred_harp_analyzer.py:438-466 | equal signatures iff equal `set(...)` of the two degree lists |
| Chords.ExactMatch | analysis/sacred_harp_analyzer.py:440-466 | the search returns the first table entry with the given degree set, and none when no entry has it |
| Chords.MinOf | analysis/sacred_harp_analyzer.py:478 | the result is in the list and no element is below it |
| Chords.RootDegree | analysis/sacred_harp_analyzer.py:468-478 | the assumed root is the lowest degree |
| Chords.CollectDegrees | analysis/sacred_harp_analyzer.py:415-420 | the loop collects the degrees of the diatonic pitch classes, in order |
| Chords.IdentifyChord | analysis/sacred_harp_analyzer.py:402-430 | identify_sacred_harp_chord returns the classification of the pitches |
| Chords.ChordAtOffset | analysis/sacred_harp_analyzer.py:377-400 | get_chord_at_offset returns the classification of everything sounding |
| Chords.DiatonicOffsets | analysis/sacred_harp_analyzer.py:87-95 | a pitch class has a degree iff it lies 0, 2, 4, 5, 7, 9 or 11 semitones above the tonic |
| Chords.UniqueMembers | analysis/sacred_harp_analyzer.py:408-409 | the sorted unique pitch classes are exactly the classes that sound |
| Chords.DegreesOfMembers | analysis/sacred_harp_analyzer.py:415-422 | a degree is in the sorted degree list iff some sounding pitch has it |
| Chords.ReadingDegrees | analysis/sacred_harp_analyzer.py:402-430 | a named reading lists degrees 1..7, sorted without duplicates, present iff some pitch has them |
| Chords.ClassifyByPitchClasses | analysis/sacred_harp_analyzer.py:402-430 | the reading depends only on the set of sounding pitch classes (not on octave, doubling or order) |
| Chords.PatternsAreDegrees | analysis/sacred_harp_analyzer.py:441-466 | every table entry lists degrees 1..7 only |
| Chords.DetermineRomanByTable | analysis/sacred_harp_analyzer.py:440-466 | the first table entry with the same degree set decides root and numeral, whatever the mode |
| Chords.DetermineRoman | analysis/sacred_harp_analyzer.py:432-482 | a root is reported iff some degree is given; with none the chord is unknown |
| Chords.ExactMatchFinds | analysis/sacred_harp_analyzer.py:440-466 | the search stops at the first matching entry |
| Chords.DetermineRomanLowest | analysis/sacred_harp_analyzer.py:468-482 | with no table match, the numeral is that of the lowest degree in the mode's table |
| Chords.NoTableMatch | analysis/sacred_harp_analyzer.py:440-466 | a degree set matching no entry finds nothing in the search |
| Chords.NameInjective | analysis/sacred_harp_analyzer.py:108-116 | the numerals the classifier can produce have pairwise different spellings |
| Chords.UnlistedName | analysis/sacred_harp_analyzer.py:472-482 | a name starts with '?' iff its degree is in neither table, and it is then "?d" |
| Chords.DetermineRomanProduced | analysis/sacred_harp_analyzer.py:432-482 | a non-empty degree list never reads "Unknown", and reads a numeral the classifier can produce |
| Chords.MajorModeReadsMajor | analysis/sacred_harp_analyzer.py:469-482 | in a major key, degrees 1..7 always read as a major-table numeral of a degree 1..7 |
| Chords.PatternsMajorStyle | analysis/sacred_harp_analyzer.py:440-466 | each table entry's numeral is the major-table numeral of its root |
| Chords.UnknownIffNoDegree | analysis/sacred_harp_analyzer.py:422-425 | a beat reads "Unknown" iff no sounding pitch is diatonic, and then lists its pitch classes |
| Chords.SoundingIffNamed | analysis/sacred_harp_analyzer.py:397-400 | a beat gets a numeral iff something sounds, and its spelling is never empty |
| Chords.Classify | analysis/sacred_harp_analyzer.py:402-430 | a numeral is given iff some pitch is given, and no pitch gives no degrees |
| Chords.ChromaticNeighbours | analysis/sacred_harp_analyzer.py:418-420 | of two pitch classes a semitone or a tritone apart, at most one is chromatic |
| Chords.ChromaticHasNoPair | analysis/sacred_harp_analyzer.py:583-594 | chromatic pitch classes alone contain no do-re, mi-fa or si-do pair |
| Chords.UnknownHasNoAdjacentPair | analysis/sacred_harp_analyzer.py:580-594 | the pitch classes of an "Unknown" beat never form an adjacent-degree pair |
| Chords.TonicTriadReadsMajor | analysis/sacred_harp_analyzer.py:441-442 | do-mi-sol reads "I" in every mode |
| Chords.PatternsHaveTwoDegrees | analysis/sacred_harp_analyzer.py:441-466 | every table entry has at least two distinct degrees |
| Chords.LoneDegree | analysis/sacred_harp_analyzer.py:469-474 | a lone degree is its own root, named from the major table only in a major key |
| Rules.Names | analysis/sacred_harp_analyzer.py:18-31 | spelling a tier spells each numeral in it, in order |
| Rules.TierSpellings | analysis/sacred_harp_analyzer.py:18-31 | the tiers spell exactly the published major and minor rule tables |
| Rules.RulesFor | analysis/sacred_harp_analyzer.py:527 | any mode other than "minor" uses the major rules |
| Rules.Assess | analysis/sacred_harp_analyzer.py:525-538 | each status holds iff its tier lists the numeral and no earlier-tested tier does |
| Rules.RulesDisjoint | analysis/sacred_harp_analyzer.py:18-31 | no numeral is listed in two tiers of one mode |
| Rules.AssessByTier | analysis/sacred_harp_analyzer.py:525-538 | a numeral gets the status of the one tier that lists it, and UNKNOWN iff none does |
| Rules.UnknownModeIsMajor | analysis/sacred_harp_analyzer.py:527 | an unrecognised mode is rated exactly as major |
| Rules.SampleRatings | analysis/sacred_harp_analyzer.py:525-538 | sample ratings: vii° forbidden, I good, IV ok, iii warning in major; VI forbidden and VII good in minor |
| Rules.MinorTonicTriadIsUnknown | analysis/sacred_harp_analyzer.py:525-538 | a tonic triad in a minor key reads "I" and is rated UNKNOWN |
| Rules.MinorTableChordsUnknown | analysis/sacred_harp_analyzer.py:525-538 | in a minor key every triad or dyad of the exact table is rated UNKNOWN |
| Rules.MajorNumeralsRated | analysis/sacred_harp_analyzer.py:525-538 | in a major key every numeral the classifier produces from degrees 1..7 gets a rating other than UNKNOWN |
| Rules.MajorTiersCover | analysis/sacred_harp_analyzer.py:18-24 | every major-table numeral is listed in some major tier |
| Rules.GoodLines | analysis/sacred_harp_analyzer.py:900-902 | only GOOD lines for the progressions searched are logged |
| Rules.ErrorLines | analysis/sacred_harp_analyzer.py:905-910 | the scan logs only vii° and minor-key ii° errors |
| Rules.AnalyzeProgression | analysis/sacred_harp_analyzer.py:894-910 | analyze_progression logs the progression line, the GOOD lines, then the error lines |
| Rules.FindStandardProgressions | analysis/sacred_harp_analyzer.py:899-902 | the first loop logs one GOOD line per standard progression found, in table order |
| Rules.FindForbiddenChords | analysis/sacred_harp_analyzer.py:905-910 | the second loop logs one error line per forbidden chord scanned |
| Rules.GoodLinesIff | analysis/sacred_harp_analyzer.py:900-902 | a progression's GOOD line is logged iff its text occurs in the progression's text |
| Rules.RunIsReported | analysis/sacred_harp_analyzer.py:899-902 | a standard progression that appears as a contiguous run of chords is always reported |
| Rules.FourChordText | analysis/sacred_harp_analyzer.py:899 | the text of four chords is their names joined by " - " |
| Rules.RawSubstringMatch | analysis/sacred_harp_analyzer.py:899-902 | VII vi V I is reported as containing I vi V I, though no run of its chords is that progression |
| Rules.TailTextReported | analysis/sacred_harp_analyzer.py:899-902 | the GOOD line of I vi V I is logged for VII vi V I |
| Rules.TailText | analysis/sacred_harp_analyzer.py:899 | the text of VII vi V I is "VI" followed by the text of I vi V I |
| Rules.SeventhText | analysis/sacred_harp_analyzer.py:899 | the text of VII vi V I is "VII - vi - V - I" |
| Rules.TonicText | analysis/sacred_harp_analyzer.py:35 | the text of the first standard progression is "I - vi - V - I" |
| Rules.NoStandardRun | analysis/sacred_harp_analyzer.py:34-41 | no contiguous run of VII vi V I equals I vi V I |
| Rules.LastChordIgnored | analysis/sacred_harp_analyzer.py:905 | the error lines do not depend on the last chord of the progression |
| Rules.FinalViiNotReported | analysis/sacred_harp_analyzer.py:905-908 | a vii° that appears only as the final chord logs no vii° error |
| Rules.ErrorCount | analysis/sacred_harp_analyzer.py:905-910 | one vii° error per scanned vii°, and one ii° error per scanned ii° in a minor key and none otherwise |
| Rules.ErrorStep | analysis/sacred_harp_analyzer.py:905-910 | the last scanned chord adds exactly its own error lines |
| Directives.FirstMatch | analysis/sacred_harp_analyzer.py:218 | a search result is one of the candidate matches from the start position on |
| Directives.FirstMatchNone | analysis/sacred_harp_analyzer.py:218 | the search finds nothing iff no position from the start matches |
| Directives.FirstMatchFound | analysis/sacred_harp_analyzer.py:218 | a found match is the one at the leftmost matching position |
| Directives.KeyAt | analysis/sacred_harp_analyzer.py:211 | a key directive's mode is "major" or "minor" |
| Directives.KeyIff | analysis/sacred_harp_analyzer.py:211 | the key matcher accepts a position iff the line has the shape `\key`, whitespace, note name, whitespace, `\major`/`\minor` there |
| Directives.KeyMatches | analysis/sacred_harp_analyzer.py:211 | every line of the key shape is accepted with its mode |
| Directives.KeyCandidates | analysis/sacred_harp_analyzer.py:218 | the candidates are the key matcher's outcome at every start position |
| Directives.SearchKey | analysis/sacred_harp_analyzer.py:218-221 | a key found has mode "major" or "minor" |
| Directives.SearchKeyLeftmost | analysis/sacred_harp_analyzer.py:218 | `re.search` for the key finds a directive iff one starts somewhere, and then finds the leftmost one |
| Directives.TransposeAt | analysis/sacred_harp_analyzer.py:214 | a transpose directive has two non-empty note names |
| Directives.TransposeIff | analysis/sacred_harp_analyzer.py:214 | the transpose matcher accepts a position iff the line has the shape `\transpose`, note, note, optional whitespace, `{` there |
| Directives.TransposeMatches | analysis/sacred_harp_analyzer.py:214 | every line of the transpose shape is accepted with its notes |
| Directives.TransposeCandidates | analysis/sacred_harp_analyzer.py:225 | the candidates are the transpose matcher's outcome at every start position |
| Directives.SearchTranspose | analysis/sacred_harp_analyzer.py:225-228 | a transposition found has two non-empty note names |
| Directives.SearchTransposeLeftmost | analysis/sacred_harp_analyzer.py:225 | `re.search` for the transposition finds one iff one starts somewhere, and then finds the leftmost one |
| Directives.SemitonesInOctave | analysis/sacred_harp_analyzer.py:98-106 | every name, unknown ones as do, lies within one octave above do |
| Directives.NormalizeInterval | analysis/sacred_harp_analyzer.py:236-242 | the folded interval agrees with the raw one modulo 12 and lies in [-6, 6] for raw intervals within 18 |
| Directives.TransposeBounds | analysis/sacred_harp_analyzer.py:231-245 | the LilyPond interval lies in [-6, 6], agrees with `to - from` modulo 12, and the analysis offset undoes it |
| Directives.TransposeDoLa | analysis/sacred_harp_analyzer.py:235 | `\transpose do la` is -3 in LilyPond and +3 for analysis |
| Directives.TritonesKept | analysis/sacred_harp_analyzer.py:237-242 | a tritone up stays +6 and a tritone down stays -6 |
| Directives.EnglishNamesIgnored | analysis/sacred_harp_analyzer.py:231-232 | English note names count as do, so `\transpose c a` is no transposition |
| Directives.ReadDirectives | analysis/sacred_harp_analyzer.py:203-248 | the loop computes the directives scan of the lines |
| Directives.ScanDirectivesAppend | analysis/sacred_harp_analyzer.py:216-248 | until a transposition is found, the scan continues across a split of the lines with the mode reached |
| Directives.ScanDirectives | analysis/sacred_harp_analyzer.py:203-248 | the mode reached is the starting one or one a `\key` line named (major or minor); a detected transposition is undone by its negation |
| Directives.FirstTransposeWins | analysis/sacred_harp_analyzer.py:248 | lines after the first transposition change nothing |
| Directives.KeyLineSkipsTranspose | analysis/sacred_harp_analyzer.py:218-222 | a line with a `\key` sets the mode and its transposition is skipped |
| Lilypond.SkipSpace | analysis/sacred_harp_analyzer.py:155 | the whitespace run ends within the line |
| Lilypond.SkipLower | analysis/sacred_harp_analyzer.py:211 | the lower-case run ends within the line |
| Lilypond.SkipSpaceMeaning | analysis/sacred_harp_analyzer.py:155 | `\s*` takes every whitespace character and stops at the first other one |
| Lilypond.SkipLowerMeaning | analysis/sacred_harp_analyzer.py:211 | `[a-z]+` takes every lower-case letter and stops at the first other character |
| Lilypond.SkipSpaceOver | analysis/sacred_harp_analyzer.py:155 | a whitespace run stops exactly where the first non-space stands |
| Lilypond.SkipLowerOver | analysis/sacred_harp_analyzer.py:211 | a letter run stops exactly where the first other character stands |
| Lilypond.VoicePrefix | analysis/sacred_harp_analyzer.py:155 | a voice found is one of the four and begins the line |
| Lilypond.MatchDeclaration | analysis/sacred_harp_analyzer.py:155-161 | a declaration names a voice that begins the line followed by section letter A or B |
| Lilypond.VoicePrefixOf | analysis/sacred_harp_analyzer.py:155 | a line that begins with a voice name is attributed to that voice |
| Lilypond.DeclarationIff | analysis/sacred_harp_analyzer.py:155 | the matcher accepts a line with a voice and section iff the line has the declared shape |
| Lilypond.DeclarationMatches | analysis/sacred_harp_analyzer.py:155 | every line of the declared shape is accepted |
| Lilypond.SectionEnd | analysis/sacred_harp_analyzer.py:168-192 | a section that ends, ends on or after its declaration line and within the file |
| Lilypond.Recorded | analysis/sacred_harp_analyzer.py:157-189 | a recorded section starts on its declaration line, holds its lines right-stripped, and names the declared voice and section |
| Lilypond.RecordedLines | analysis/sacred_harp_analyzer.py:157 | what each line records, for every line in order |
| Lilypond.ScanLine | analysis/sacred_harp_analyzer.py:173-189 | the character loop computes the brace scan of the line |
| Lilypond.FindSectionEnd | analysis/sacred_harp_analyzer.py:164-192 | the line loop finds the section's end and collects exactly its right-stripped lines |
| Lilypond.RecordSection | analysis/sacred_harp_analyzer.py:158-192 | the loop body records the section declared on a line, if its braces close |
| Lilypond.ParseVoiceSections | analysis/sacred_harp_analyzer.py:157-192 | the declaration loop builds the voice-section dictionary of the lines |
| Lilypond.CollectFrom | analysis/sacred_harp_analyzer.py:181-188 | each dictionary entry is a recorded section, stored under its own key |
| Lilypond.CollectLastWins | analysis/sacred_harp_analyzer.py:181-188 | the last section recorded for a key is the one kept |
| Lilypond.SectionsWellFormed | analysis/sacred_harp_analyzer.py:157-192 | each stored section starts on a line declaring it, spans its lines and holds exactly those lines, right-stripped |
| Lilypond.RecordedShape | analysis/sacred_harp_analyzer.py:181-188 | a recorded section's bounds, content and declaration agree |
| Lilypond.LastDeclarationWins | analysis/sacred_harp_analyzer.py:181-188 | a later redeclaration of a voice section overwrites the earlier one |
| Lilypond.DepthAppend | analysis/sacred_harp_analyzer.py:173-178 | brace depth adds up over concatenation |
| Lilypond.ScanCharsMeaning | analysis/sacred_harp_analyzer.py:173-189 | the character loop stops at a closing position, or else ends with the count and flag of the whole line |
| Lilypond.ClosesLater | analysis/sacred_harp_analyzer.py:168-192 | a closing position in a later line closes the whole text |
| Lilypond.SectionEndBalanced | analysis/sacred_harp_analyzer.py:168-192 | a section is recorded only where the braces return to zero at a `}` after a `{` |
| Lilypond.ReopenedUnrecorded | analysis/sacred_harp_analyzer.py:191-192 | a line whose count returns to zero through a `{` stops the scan and records nothing |
| Lilypond.ReopenedDeclares | analysis/sacred_harp_analyzer.py:155-158 | the example line is a bassA declaration |
| Lilypond.ReopenedStripped | analysis/sacred_harp_analyzer.py:158 | stripping leaves the example line unchanged |
| Lilypond.ReopenedShape | analysis/sacred_harp_analyzer.py:155 | the example line has the declared shape |
| Lilypond.UnclosedUnrecorded | analysis/sacred_harp_analyzer.py:168-192 | a declaration whose braces never close records nothing |
| Lilypond.ReopenedScan | analysis/sacred_harp_analyzer.py:173-192 | the example line's scan ends at count zero with an opening brace seen |
| Lilypond.ScanCharsStep | analysis/sacred_harp_analyzer.py:173-178 | characters other than braces leave the scan unchanged |
| Location.Trunc | analysis/sacred_harp_analyzer.py:287 | `int(x)` truncates toward zero |
| Location.GetLocation | analysis/sacred_harp_analyzer.py:262-300 | a location exists iff this voice's section for the offset is known; it carries that section's lines and an estimate below the closing line |
| Location.EstimateNotBeforeSection | analysis/sacred_harp_analyzer.py:285-296 | the estimate is never before the first content line, unless the clamp to the closing line wins |
| Location.SectionAInside | analysis/sacred_harp_analyzer.py:278-296 | in section A, a section of three or more lines gets an estimate strictly inside it |
| Location.ContextLine | analysis/sacred_harp_analyzer.py:313-315 | a context line carries the arrow iff it is the estimated line |
| Location.GetContext | analysis/sacred_harp_analyzer.py:302-317 | no context without a location or without source lines; otherwise the window of file lines around the estimate |
| Location.WindowShape | analysis/sacred_harp_analyzer.py:308-316 | the window has at most seven lines, consecutive and in file order |
| Location.FullWindow | analysis/sacred_harp_analyzer.py:308-316 | a window away from both ends of the file has seven lines, the marked one in the middle |
| Location.MarkerShownIff | analysis/sacred_harp_analyzer.py:314 | the arrow is shown iff the estimated line is a line of the file |
| Timeline.MeterOf | analysis/sacred_harp_analyzer.py:336-366 | a reported time signature gives a usable meter, and none gives 4/4 |
| Timeline.MeasureLength | analysis/sacred_harp_analyzer.py:341-356 | whatever the grouping, beats per measure times beat duration is the measure the signature names |
| Timeline.CompoundMeters | analysis/sacred_harp_analyzer.py:348-354 | 6/8, 9/8 and 12/8 count dotted quarters; any other x/8 counts eighths |
| Timeline.BeatCountIff | analysis/sacred_harp_analyzer.py:499 | beat k is analysed iff k beats lie below the length |
| Timeline.BeatAnalyzedIff | analysis/sacred_harp_analyzer.py:499 | beat k is analysed iff its offset lies below the length |
| Timeline.OffsetStep | analysis/sacred_harp_analyzer.py:515 | the next beat lies one beat duration later |
| Timeline.BeatPosition | analysis/sacred_harp_analyzer.py:496-521 | the bar and beat numbers of beat k count exactly the k beats before it |
| Timeline.NextBeat | analysis/sacred_harp_analyzer.py:516-521 | the beat number goes up, wrapping to 1 in a new bar after the last beat of a bar |
| Timeline.EntryAt | analysis/sacred_harp_analyzer.py:500-512 | a beat gives an entry iff something sounds there, at its offset with its bar and beat |
| Timeline.ReadingEntry | analysis/sacred_harp_analyzer.py:500-512 | a beat's entry is the classifier's reading, rated |
| Timeline.Beats | analysis/sacred_harp_analyzer.py:499-521 | the outcome of each of the first n beats |
| Timeline.BeatsStep | analysis/sacred_harp_analyzer.py:499-521 | one more beat appends its outcome |
| Timeline.KeptStep | analysis/sacred_harp_analyzer.py:502-512 | one more beat adds its entry, if any, to those kept |
| Timeline.KeptAppend | analysis/sacred_harp_analyzer.py:502-512 | keeping distributes over appending one beat |
| Timeline.AnalyzeBeat | analysis/sacred_harp_analyzer.py:500-512 | the loop body gives the entry of the beat |
| Timeline.AnalyzeChords | analysis/sacred_harp_analyzer.py:484-523 | analyze_chords returns the chord analysis of the whole score |
| Timeline.NextBeatStep | analysis/sacred_harp_analyzer.py:499-521 | one pass keeps the beat's entry and moves the counters to the next beat |
| Timeline.NextPosition | analysis/sacred_harp_analyzer.py:514-521 | the counters move to the offset, bar and beat of the next beat |
| Timeline.KeptIff | analysis/sacred_harp_analyzer.py:502 | a beat is kept iff something sounds at it; one with no diatonic pitch is kept as "Unknown" |
| Timeline.KeptMembers | analysis/sacred_harp_analyzer.py:502-512 | an entry is kept iff some beat gave it |
| Timeline.KeptOrdered | analysis/sacred_harp_analyzer.py:495-523 | the kept entries have strictly increasing offsets below the offset after the last beat |
| Timeline.AnalysisOrdered | analysis/sacred_harp_analyzer.py:484-523 | the analysis has at most one entry per beat, in strictly increasing offset order |
| Timeline.EntryOnBeat | analysis/sacred_harp_analyzer.py:484-523 | every entry lies on a beat within the score, with that beat's bar and beat numbers and that beat's reading |
| Timeline.PositionOfEntry | analysis/sacred_harp_analyzer.py:505-508 | an entry's bar and beat numbers recover its beat index |
| VoiceLeading.ElementPitch | analysis/sacred_harp_analyzer.py:553-558 | a voice's pitch from an element is one of the element's pitches |
| VoiceLeading.VoicePitches | analysis/sacred_harp_analyzer.py:540-570 | the loop computes the four voices' pitches of the parts |
| VoiceLeading.LastPitchNone | analysis/sacred_harp_analyzer.py:552-568 | a part gives no pitch iff none of its elements does |
| VoiceLeading.LastPitchWins | analysis/sacred_harp_analyzer.py:552-568 | a part's pitch is that of its last element carrying one |
| VoiceLeading.SnapshotPitchSounds | analysis/sacred_harp_analyzer.py:540-570 | every voice's pitch is among the pitches the chord classifier hears at that beat |
| VoiceLeading.LaterPartsIgnored | analysis/sacred_harp_analyzer.py:560-568 | parts after the fourth do not change the voices |
| VoiceLeading.PairsIn | analysis/sacred_harp_analyzer.py:583-594 | a pair is reported iff both its degrees occur, each pair at most once |
| VoiceLeading.LeadingAlerts | analysis/sacred_harp_analyzer.py:576-601 | the first loop gives only adjacent-degree and crossing warnings |
| VoiceLeading.CheckLeading | analysis/sacred_harp_analyzer.py:576-601 | the first loop of check_voice_leading_issues gives the warnings of every entry, in order |
| VoiceLeading.LeadingAlertsIff | analysis/sacred_harp_analyzer.py:583-601 | a crossing is warned iff the bass sounds above the tenor; a pair iff both its degrees sound |
| VoiceLeading.UnknownBeatNoPair | analysis/sacred_harp_analyzer.py:580-594 | an "Unknown" beat never draws an adjacent-degree warning |
| VoiceLeading.ContextOf | analysis/sacred_harp_analyzer.py:650-654 | no context without a location or without source lines |
| VoiceLeading.RangeAlert | analysis/sacred_harp_analyzer.py:633-682 | a voice is warned iff it sounds and its written pitch draws a range kind; the warning records the sounding and written pitch |
| VoiceLeading.CheckVoiceRange | analysis/sacred_harp_analyzer.py:633-682 | the voice loop body gives that voice's range warning |
| VoiceLeading.CheckEntryRanges | analysis/sacred_harp_analyzer.py:631-682 | the voice loop gives the range warnings of the beat's voices |
| VoiceLeading.AllVoices | analysis/sacred_harp_analyzer.py:633 | the loop over the four voices covers all of them |
| VoiceLeading.CheckCriticalRanges | analysis/sacred_harp_analyzer.py:623-684 | check_critical_ranges gives the range warnings of every entry, in order |
| VoiceLeading.BassNeverTooLow | analysis/sacred_harp_analyzer.py:646-661 | only the bass draws CRITICAL, exactly at or below G2, and the bass never draws EXTREME-low |
| VoiceLeading.InRangeIff | analysis/sacred_harp_analyzer.py:646-682 | no range warning iff the written pitch lies within the repertoire range and, for the bass, above G2 |
| VoiceLeading.RangeKindOf | analysis/sacred_harp_analyzer.py:646-682 | CRITICAL iff a bass at or below G2; EXTREME-low only below the voice's absolute low, EXTREME-high only above its absolute high |
| VoiceLeading.OnePerVoice | analysis/sacred_harp_analyzer.py:633-682 | a beat draws at most one range warning per voice, in voice order |
| VocalFatigue.SampleFrom | analysis/sacred_harp_analyzer.py:703-715 | a voice adds a history item iff it sounds, with its sounding and written pitch and its bar and beat |
| VocalFatigue.HistoryOf | analysis/sacred_harp_analyzer.py:697-715 | each voice's history has one item per entry |
| VocalFatigue.HistoryStep | analysis/sacred_harp_analyzer.py:697-715 | each entry adds one item to a voice's history |
| VocalFatigue.RecordEntry | analysis/sacred_harp_analyzer.py:703-715 | the voice loop appends one item to every voice's history |
| VocalFatigue.RecordSample | analysis/sacred_harp_analyzer.py:704-715 | the item of one voice is its sample, or None when it is silent |
| VocalFatigue.RecordHistories | analysis/sacred_harp_analyzer.py:693-715 | the first loop builds every voice's history |
| VocalFatigue.CountWindow | analysis/sacred_harp_analyzer.py:739-760 | the counting loop computes a window's tally |
| VocalFatigue.TallyConsistent | analysis/sacred_harp_analyzer.py:739-760 | counts stay within the window, runs never exceed their longest runs or counts, and only one kind of run is open |
| VocalFatigue.SilenceEndsRuns | analysis/sacred_harp_analyzer.py:740-743 | a silent beat ends both runs and keeps the counts |
| VocalFatigue.TallyCounts | analysis/sacred_harp_analyzer.py:745-757 | the high and low counts are the numbers of items above the 90th and below the 10th percentile |
| VocalFatigue.VerdictIff | analysis/sacred_harp_analyzer.py:768-789 | a window is warned iff a threshold is met, low only when no high threshold is, sustained iff five or more extreme notes |
| VocalFatigue.Verdict | analysis/sacred_harp_analyzer.py:763-789 | a window warning names the voice and the window's first and last measures, and counts at least four extreme notes |
| VocalFatigue.ScanVoice | analysis/sacred_harp_analyzer.py:720-789 | the sliding-window loop gives the voice's fatigue warnings |
| VocalFatigue.CheckVocalFatigue | analysis/sacred_harp_analyzer.py:686-791 | check_vocal_fatigue gives the fatigue warnings of the four voices in order |
| VocalFatigue.FatigueAllVoices | analysis/sacred_harp_analyzer.py:720 | the voice loop covers all four voices |
| VocalFatigue.ScanSound | analysis/sacred_harp_analyzer.py:725-789 | the reported set is exactly the bars warned, no bars are warned twice, and each warning comes from a scanned window |
| VocalFatigue.WindowAlertShape | analysis/sacred_harp_analyzer.py:762-789 | a window's warning is a fatigue warning for the voice naming the window's bars |
| VocalFatigue.ScanKinds | analysis/sacred_harp_analyzer.py:768-789 | all kept warnings are fatigue warnings for the voice |
| VocalFatigue.ScanReported | analysis/sacred_harp_analyzer.py:765-789 | bars are in the reported set iff some kept warning names them |
| VocalFatigue.ScanDistinct | analysis/sacred_harp_analyzer.py:765-789 | no two kept warnings name the same bars |
| VocalFatigue.ScanFrom | analysis/sacred_harp_analyzer.py:728-789 | every kept warning was drawn by a scanned window |
| VocalFatigue.ScanCovers | analysis/sacred_harp_analyzer.py:765-789 | every window that draws a warning has its bars reported |
| VocalFatigue.ShortPieceNoFatigue | analysis/sacred_harp_analyzer.py:690-728 | fewer entries than a window draw no fatigue warning |
| VocalFatigue.MiddleRangeNoFatigue | analysis/sacred_harp_analyzer.py:739-789 | a voice that stays between its 10th and 90th percentiles is never warned |
| VocalFatigue.NoExtremesCountZero | analysis/sacred_harp_analyzer.py:745-760 | a window with no extreme note counts none |
| Motion.CheckContraryMotion | analysis/sacred_harp_analyzer.py:793-829 | check_contrary_motion gives the contrary-motion warning of the counts over all steps |
| Motion.CountStep | analysis/sacred_harp_analyzer.py:810-821 | the loop body counts one step |
| Motion.CountsBounded | analysis/sacred_harp_analyzer.py:800-821 | parallel moves are among the moves, and there is at most one move per step |
| Motion.StepIff | analysis/sacred_harp_analyzer.py:810-821 | a step is a move iff both voices sound at both beats and both change; it is parallel iff they change the same way |
| Motion.WarningShape | analysis/sacred_harp_analyzer.py:824-827 | at most one warning, reporting more than 60% parallel moves and at least one |
| Motion.NoParallelNoWarning | analysis/sacred_harp_analyzer.py:803-827 | with no parallel step the count is zero and nothing is warned |
| Analyzer.CheckVoiceLeadingIssues | analysis/sacred_harp_analyzer.py:572-621 | check_voice_leading_issues gives the first loop's warnings, then the range, fatigue and motion warnings |
| Analyzer.VoiceLeadingOrder | analysis/sacred_harp_analyzer.py:572-621 | the warnings come in four runs of the four checks' kinds, never interleaved |
| Analyzer.LeadingKinds | analysis/sacred_harp_analyzer.py:576-601 | the first loop's warnings are adjacent-degree or crossing warnings |
| Analyzer.RangeKinds | analysis/sacred_harp_analyzer.py:623-684 | the range check's warnings are range warnings |
| Analyzer.FatigueKinds | analysis/sacred_harp_analyzer.py:686-791 | the fatigue check's warnings are fatigue warnings |
| Analyzer.ChordLine | analysis/sacred_harp_analyzer.py:865-879 | an entry is logged iff its status is FORBIDDEN, WARNING or UNKNOWN |
| Analyzer.LogChordProblems | analysis/sacred_harp_analyzer.py:854-879 | the chord-by-chord loop logs the lines of the problematic entries |
| Analyzer.ChordLinesIff | analysis/sacred_harp_analyzer.py:865-879 | at most one line per entry, all of problematic chords, and none iff no entry is problematic |
| Analyzer.ForbiddenAlwaysFixed | analysis/sacred_harp_analyzer.py:870-877 | every FORBIDDEN chord gets its fix: vii° in major, ii° and VI in minor |
| Analyzer.NameUnknownIff | analysis/sacred_harp_analyzer.py:887 | only the unclassified chord is spelled "Unknown" |
| Analyzer.ProgressionMembers | analysis/sacred_harp_analyzer.py:887 | the progression holds exactly the classified numerals of the entries |
| Analyzer.AssembleProgression | analysis/sacred_harp_analyzer.py:886-889 | progression lines are logged iff more than one chord is classified |
| Analyzer.WarningLines | analysis/sacred_harp_analyzer.py:882-884 | one VOICE LEADING WARNING line per warning, in order |
| Analyzer.ProgressionLines | analysis/sacred_harp_analyzer.py:888-889 | one log line per line of the progression analysis, in order |
| Analyzer.RunLogShape | analysis/sacred_harp_analyzer.py:837-892 | the log opens with the start line and ends with the end line iff the run succeeds; an unreadable file and a silent score are logged as such |
| Analyzer.ProgressionLoggedIff | analysis/sacred_harp_analyzer.py:886-889 | the progression is analysed iff more than one beat is classified |
| Analyzer.AnalyzeLoaded | analysis/sacred_harp_analyzer.py:847-892 | the analysis logs its lines and succeeds iff some beat sounds |
| Analyzer.SacredHarpAnalyzer.constructor | analysis/sacred_harp_analyzer.py:119-142 | starts from the defaults, then reads the LilyPond lines when given: sections, written mode and transposition |
| Analyzer.SacredHarpAnalyzer.LoadLilypondSource | analysis/sacred_harp_analyzer.py:144-201 | replaces the lines, writes the sections found over those already known, sets the mode and the transposition with its log line, moves section B halfway through an already loaded score; score, key, signature and meter stay; keeps `Valid` |
| Analyzer.SacredHarpAnalyzer.ParseKeyAndTransposition | analysis/sacred_harp_analyzer.py:203-248 | over the stored lines, sets the mode the directives leave and, when a transposition is found, its undoing and its log line; lines, sections and MIDI fields stay |
| Analyzer.SacredHarpAnalyzer.EstimateSectionTimings | analysis/sacred_harp_analyzer.py:250-260 | with a loaded score, section B starts halfway through it; without one, nothing changes; every other field stays |
| Analyzer.SacredHarpAnalyzer.LoadMidi | analysis/sacred_harp_analyzer.py:319-375 | succeeds iff the file parses; then stores score, key, signature, meter and section B's start; otherwise logs the error |
| Analyzer.SacredHarpAnalyzer.RunAnalysis | analysis/sacred_harp_analyzer.py:837-892 | logs exactly the run's lines and succeeds iff the file is readable and some beat sounds; a readable file leaves the score, key, signature, meter and section B's start that load_midi stores; an unreadable one changes none of them; the LilyPond fields stay; keeps `Valid` |
| Analyzer.SacredHarpAnalyzer.AnalyzeLoadedScore | analysis/sacred_harp_analyzer.py:844-892 | after loading, logs the header and the analysis lines, and succeeds iff some beat sounds; the MIDI and LilyPond fields stay as loaded; keeps `Valid` |

## Left out

- File I/O is not modelled: opening the LilyPond file, the `os.path.exists` test and
  reading the MIDI file. The LilyPond file is an optional list of lines. The MIDI
  file is an input that is either unreadable or parsed (score, key, time signature).
- music21 is abstracted. Parsing, `analyze('key')`, `getElementsByOffset` and
  `highestTime` are fields of the parsed input (`Score.sounding`,
  `Score.highestTime`). `pitch.midi` and `pitchClass` are a MIDI integer and that
  integer mod 12.
- Floating point: offsets, beat durations and progress fractions are exact reals. The
  float rounding of `current_offset += beat_duration` is not modelled. The 60%
  parallel-motion test is written exactly, as 5·parallel > 3·total.
- Regular expressions are written as small matchers for the three patterns used.
  `\s`, `strip`, `lstrip` and `rstrip` all take as whitespace exactly the characters
  `str.isspace()` accepts (`Base.IsSpace`): \t to \r, \x1c to \x1f, the space and
  the Unicode spaces and separators.
- log_message: log lines are report kinds carrying the values they print, without
  timestamps or the exact wording of the messages.
- The "Could not parse LilyPond file" warning (lines 200-201) is not modelled. Only
  file I/O can raise in that block (reading the source, appending to the log), and
  neither is modelled.
- LoadLilypondSource, LoadMidi: `estimate_section_timings` returns early on
  `not self.score`, which music21 also makes true for a parsed score with no
  elements. The model moves section B for every loaded score.
- watch_midi_file and main (the polling loop and command-line handling) are not
  modelled; both are I/O drivers around run_analysis.
- analyze_musicxml_ranges and download_and_analyze_files in analyze_ranges.py are not
  modelled; they parse XML and fetch files. Only note_to_midi and midi_to_note_name
  are modelled.
- The `midi_file`, `log_file`, `lilypond_file` and `key_signature` fields are not
  modelled. The first three are only passed to I/O. `key_signature` is the key
  already stored as `key`.
- `section_timings['A']` is always 0, so only B's start is a field.
- A time signature is taken as music21 reports one: a positive numerator and a
  non-negative denominator. This requirement on RunAnalysis and LoadMidi keeps beats
  per measure at least 1. A zero denominator follows the source's exception path to
  4/4.
