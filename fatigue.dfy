/** check_vocal_fatigue: each voice's written pitches beat by beat, scanned with a
    window of eight beats for too many (or too many consecutive) notes in the top or
    bottom tenth of the voice's range. */
module VocalFatigue {
  import opened Base
  import opened Chords
  import opened Timeline
  import opened VoiceLeading

  /** The beats a window spans: two measures of 4/4. */
  const WindowSize: nat := 8

  /** One voice at one analysed beat: the sounding and the written pitch and the beat's
      place. */
  datatype Sample = Sample(midi: int, written: int, measure: int, beat: int)

  /** One voice's history: one item per entry, none where the voice is silent. */
  type History = seq<Option<Sample>>

  /** The history item of voice v for a beat whose voices are s. */
  function SampleFrom(s: Snapshot, transpose: int, e: Entry, v: Voice): (x: Option<Sample>)
    ensures x.Some? <==> PitchOf(s, v).Some?
    ensures x.Some? ==> x.value.midi == PitchOf(s, v).value && x.value.written == x.value.midi + transpose &&
                        x.value.measure == e.measure && x.value.beat == e.beat
  {
    match PitchOf(s, v)
    case None => None
    case Some(p) => Some(Sample(p, p + transpose, e.measure, e.beat))
  }

  function SampleOf(st: Setting, e: Entry, v: Voice): Option<Sample> {
    SampleFrom(SnapshotOf(st.score.sounding(e.offset)), st.transpose, e, v)
  }

  function HistoryOf(st: Setting, entries: seq<Entry>, v: Voice): (h: History)
    ensures |h| == |entries|
    ensures forall i :: 0 <= i < |entries| ==> h[i] == SampleOf(st, entries[i], v)
  {
    seq(|entries|, i requires 0 <= i < |entries| => SampleOf(st, entries[i], v))
  }

  /** Each entry adds one item to every voice's history. */
  lemma HistoryStep(st: Setting, entries: seq<Entry>, i: nat, v: Voice)
    requires i < |entries|
    ensures HistoryOf(st, entries[..i + 1], v) == HistoryOf(st, entries[..i], v) + [SampleOf(st, entries[i], v)]
  {
  }

  /** The voice loop of the first loop of check_vocal_fatigue: one item for each voice. */
  method RecordEntry(s: Snapshot, transpose: int, e: Entry, history: map<Voice, History>)
    returns (next: map<Voice, History>)
    requires forall v :: v in history
    ensures forall v :: v in next && next[v] == history[v] + [SampleFrom(s, transpose, e, v)]
  {
    next := history;
    for j := 0 to 4
      invariant forall v :: v in next
      invariant forall v :: next[v] == if VoiceIndex(v) < j then history[v] + [SampleFrom(s, transpose, e, v)] else history[v]
    {
      var v := VoiceOrder[j];
      assert VoiceIndex(v) == j;
      var sample := RecordSample(s, transpose, e, v);
      ghost var prev := next;
      next := next[v := next[v] + [sample]];
      forall u
        ensures next[u] == if VoiceIndex(u) < j + 1 then history[u] + [SampleFrom(s, transpose, e, u)] else history[u]
      {
        if u != v {
          assert next[u] == prev[u];
        }
      }
    }
  }

  /** The item one voice adds: its sounding and written pitch, or none when it is silent. */
  method RecordSample(s: Snapshot, transpose: int, e: Entry, v: Voice) returns (sample: Option<Sample>)
    ensures sample == SampleFrom(s, transpose, e, v)
  {
    sample := None;
    if PitchOf(s, v).Some? {
      var midi := PitchOf(s, v).value;
      sample := Some(Sample(midi, midi + transpose, e.measure, e.beat));
    }
  }

  /** The first loop of check_vocal_fatigue: every voice's history, entry by entry. */
  method RecordHistories(st: Setting, entries: seq<Entry>) returns (history: map<Voice, History>)
    ensures forall v :: v in history && history[v] == HistoryOf(st, entries, v)
  {
    history := map[Treble := [], Alto := [], Tenor := [], Bass := []];
    forall v
      ensures v in history && history[v] == HistoryOf(st, entries[..0], v)
    {
      assert v == Treble || v == Alto || v == Tenor || v == Bass;
    }
    for i := 0 to |entries|
      invariant forall v :: v in history && history[v] == HistoryOf(st, entries[..i], v)
    {
      var s := VoicePitches(st.score.sounding(entries[i].offset));
      history := RecordEntry(s, st.transpose, entries[i], history);
      forall v
        ensures history[v] == HistoryOf(st, entries[..i + 1], v)
      {
        HistoryStep(st, entries, i, v);
      }
    }
    assert entries[..|entries|] == entries;
  }

  // ---------------------------------------------------------------------
  // Counting one window

  /** The counters of one window: extreme notes, the current runs of consecutive extreme
      notes, and the longest runs seen. */
  datatype Tally = Tally(high: nat, low: nat, runHigh: nat, runLow: nat, maxHigh: nat, maxLow: nat)

  const Zero: Tally := Tally(0, 0, 0, 0, 0, 0)

  function MaxNat(a: nat, b: nat): nat {
    if a >= b then a else b
  }

  /** One item of the window: a silent beat ends both runs; a note above the 90th
      percentile counts as high, one below the 10th as low, any other ends both runs. */
  function Step(t: Tally, r: Range, x: Option<Sample>): Tally {
    if x.None? then t.(runHigh := 0, runLow := 0)
    else if x.value.written > r.percentile90 then
      t.(high := t.high + 1, runHigh := t.runHigh + 1, runLow := 0, maxHigh := MaxNat(t.maxHigh, t.runHigh + 1))
    else if x.value.written < r.percentile10 then
      t.(low := t.low + 1, runLow := t.runLow + 1, runHigh := 0, maxLow := MaxNat(t.maxLow, t.runLow + 1))
    else t.(runHigh := 0, runLow := 0)
  }

  function TallyOf(r: Range, w: History): Tally
    decreases |w|
  {
    if |w| == 0 then Zero else Step(TallyOf(r, w[..|w| - 1]), r, w[|w| - 1])
  }

  /** The counting loop over one window. */
  method CountWindow(r: Range, window: History) returns (t: Tally)
    ensures t == TallyOf(r, window)
  {
    var high: nat, low: nat, runHigh: nat, runLow: nat, maxHigh: nat, maxLow: nat := 0, 0, 0, 0, 0, 0;
    for k := 0 to |window|
      invariant Tally(high, low, runHigh, runLow, maxHigh, maxLow) == TallyOf(r, window[..k])
    {
      assert window[..k + 1][..k] == window[..k];
      var x := window[k];
      if x.None? {
        runHigh := 0;
        runLow := 0;
        continue;
      }
      var written := x.value.written;
      if written > r.percentile90 {
        high := high + 1;
        runHigh := runHigh + 1;
        runLow := 0;
        maxHigh := MaxNat(maxHigh, runHigh);
      } else if written < r.percentile10 {
        low := low + 1;
        runLow := runLow + 1;
        runHigh := 0;
        maxLow := MaxNat(maxLow, runLow);
      } else {
        runHigh := 0;
        runLow := 0;
      }
    }
    assert window[..|window|] == window;
    return Tally(high, low, runHigh, runLow, maxHigh, maxLow);
  }

  /** What the counters always satisfy: every extreme note is counted once, a run never
      exceeds the longest run nor the longest run its count, and only one kind of run is
      open. */
  ghost predicate Consistent(t: Tally, n: nat) {
    && t.high + t.low <= n
    && t.runHigh <= t.maxHigh <= t.high
    && t.runLow <= t.maxLow <= t.low
    && (t.runHigh == 0 || t.runLow == 0)
  }

  lemma {:induction false} TallyConsistent(r: Range, w: History)
    ensures Consistent(TallyOf(r, w), |w|)
    decreases |w|
  {
    if |w| > 0 {
      TallyConsistent(r, w[..|w| - 1]);
    }
  }

  /** A silent beat ends both runs and leaves the counts as they were. */
  lemma SilenceEndsRuns(r: Range, w: History)
    ensures var before, after := TallyOf(r, w), TallyOf(r, w + [None]);
            && after.runHigh == 0 && after.runLow == 0
            && after.high == before.high && after.low == before.low
            && after.maxHigh == before.maxHigh && after.maxLow == before.maxLow
  {
    assert (w + [None])[..|w|] == w;
  }

  /** The count of high notes is the number of items written above the 90th percentile. */
  function HighCount(r: Range, w: History): nat
    decreases |w|
  {
    if |w| == 0 then 0
    else
      var x := w[|w| - 1];
      HighCount(r, w[..|w| - 1]) + (if x.Some? && x.value.written > r.percentile90 then 1 else 0)
  }

  function LowCount(r: Range, w: History): nat
    decreases |w|
  {
    if |w| == 0 then 0
    else
      var x := w[|w| - 1];
      LowCount(r, w[..|w| - 1]) + (if x.Some? && x.value.written < r.percentile10 && !(x.value.written > r.percentile90) then 1 else 0)
  }

  lemma {:induction false} TallyCounts(r: Range, w: History)
    ensures TallyOf(r, w).high == HighCount(r, w)
    ensures TallyOf(r, w).low == LowCount(r, w)
    decreases |w|
  {
    if |w| > 0 {
      TallyCounts(r, w[..|w| - 1]);
    }
  }

  // ---------------------------------------------------------------------
  // Judging one window

  /** The most severe warning a window draws: high notes before low ones, counts before
      runs. Five or more extreme notes give SUSTAINED FATIGUE (the source tests six and
      five in two branches with the same message), four or more in a row FATIGUE
      WARNING. */
  function Verdict(v: Voice, t: Tally, start: int, end: int): (a: Option<Alert>)
    ensures a.Some? ==> && a.value.Fatigue? && a.value.voice == v
                        && a.value.startMeasure == start && a.value.endMeasure == end && a.value.amount >= 4
  {
    if t.high >= 6 then Some(Fatigue(v, High, true, t.high, start, end))
    else if t.high >= 5 then Some(Fatigue(v, High, true, t.high, start, end))
    else if t.maxHigh >= 4 then Some(Fatigue(v, High, false, t.maxHigh, start, end))
    else if t.low >= 6 then Some(Fatigue(v, Low, true, t.low, start, end))
    else if t.low >= 5 then Some(Fatigue(v, Low, true, t.low, start, end))
    else if t.maxLow >= 4 then Some(Fatigue(v, Low, false, t.maxLow, start, end))
    else None
  }

  /** A window draws a warning exactly when one of the four thresholds is met, and a low
      one only when neither high threshold is. */
  lemma VerdictIff(v: Voice, t: Tally, start: int, end: int)
    ensures Verdict(v, t, start, end).Some? <==> t.high >= 5 || t.maxHigh >= 4 || t.low >= 5 || t.maxLow >= 4
    ensures Verdict(v, t, start, end).Some? ==>
              var a := Verdict(v, t, start, end).value;
              && a.Fatigue? && a.voice == v && a.startMeasure == start && a.endMeasure == end
              && (a.register == Low <==> t.high < 5 && t.maxHigh < 4)
              && (a.sustained <==> (if a.register == High then t.high >= 5 else t.low >= 5))
  {
  }

  /** The window items from i on. */
  function Window(h: History, i: nat): History
    requires i + WindowSize <= |h|
  {
    h[i..i + WindowSize]
  }

  /** The bars a window names: its first and last items' measures, or, where the voice is
      silent, the measure the item's index would have if every entry were one beat. */
  function StartMeasure(h: History, i: nat, bpm: int): int
    requires i < |h| && bpm >= 1
  {
    if h[i].Some? then h[i].value.measure else i / bpm + 1
  }

  function EndMeasure(h: History, i: nat, bpm: int): int
    requires i + WindowSize <= |h| && bpm >= 1
  {
    var last := i + WindowSize - 1;
    if h[last].Some? then h[last].value.measure else last / bpm + 1
  }

  function Key(h: History, i: nat, bpm: int): (int, int)
    requires i + WindowSize <= |h| && bpm >= 1
  {
    (StartMeasure(h, i, bpm), EndMeasure(h, i, bpm))
  }

  function WindowAlert(v: Voice, h: History, i: nat, bpm: int): Option<Alert>
    requires i + WindowSize <= |h| && bpm >= 1
  {
    Verdict(v, TallyOf(RangeOf(v), Window(h, i)), StartMeasure(h, i, bpm), EndMeasure(h, i, bpm))
  }

  // ---------------------------------------------------------------------
  // Sliding the window

  /** The warnings so far and the bars already reported. */
  datatype ScanState = ScanState(alerts: seq<Alert>, reported: set<(int, int)>)

  /** The first n windows of one voice: a window's warning is kept unless its bars were
      already reported. */
  function Scan(v: Voice, h: History, bpm: int, n: nat): ScanState
    requires n <= WindowCount(h) && bpm >= 1
  {
    if n == 0 then ScanState([], {})
    else
      var prev := Scan(v, h, bpm, n - 1);
      var key := Key(h, n - 1, bpm);
      var a := WindowAlert(v, h, n - 1, bpm);
      if key !in prev.reported && a.Some? then ScanState(prev.alerts + [a.value], prev.reported + {key})
      else prev
  }

  /** How many windows fit: none in a history shorter than a window. */
  function WindowCount(h: History): nat {
    if |h| >= WindowSize then |h| - WindowSize + 1 else 0
  }

  function VoiceFatigue(v: Voice, h: History, bpm: int): seq<Alert>
    requires bpm >= 1
  {
    Scan(v, h, bpm, WindowCount(h)).alerts
  }

  /** check_vocal_fatigue: nothing for fewer than three entries, otherwise the warnings
      of the four voices in the order treble, alto, tenor, bass. */
  function FatigueAlerts(st: Setting, entries: seq<Entry>): seq<Alert>
    requires st.meter.beatsPerMeasure >= 1
  {
    if |entries| < 3 then []
    else
      var bpm := st.meter.beatsPerMeasure;
      VoiceFatigue(Treble, HistoryOf(st, entries, Treble), bpm) +
      VoiceFatigue(Alto, HistoryOf(st, entries, Alto), bpm) +
      VoiceFatigue(Tenor, HistoryOf(st, entries, Tenor), bpm) +
      VoiceFatigue(Bass, HistoryOf(st, entries, Bass), bpm)
  }

  /** The sliding-window loop of one voice. */
  method ScanVoice(v: Voice, h: History, bpm: int) returns (alerts: seq<Alert>)
    requires bpm >= 1
    ensures alerts == VoiceFatigue(v, h, bpm)
  {
    var r := RangeOf(v);
    var reported: set<(int, int)> := {};
    alerts := [];
    var count := WindowCount(h);
    for i := 0 to count
      invariant ScanState(alerts, reported) == Scan(v, h, bpm, i)
    {
      var window := h[i..i + WindowSize];
      var t := CountWindow(r, window);
      var start := if window[0].Some? then window[0].value.measure else i / bpm + 1;
      var end := if window[WindowSize - 1].Some? then window[WindowSize - 1].value.measure
                 else (i + WindowSize - 1) / bpm + 1;
      var key := (start, end);
      if key !in reported {
        var a := Verdict(v, t, start, end);
        if a.Some? {
          alerts := alerts + [a.value];
          reported := reported + {key};
        }
      }
    }
  }

  /** check_vocal_fatigue. */
  method CheckVocalFatigue(st: Setting, entries: seq<Entry>) returns (alerts: seq<Alert>)
    requires st.meter.beatsPerMeasure >= 1
    ensures alerts == FatigueAlerts(st, entries)
  {
    if |entries| < 3 {
      return [];
    }
    var history := RecordHistories(st, entries);
    alerts := [];
    for j := 0 to 4
      invariant alerts == FatigueUpTo(st, entries, j)
    {
      var v := VoiceOrder[j];
      var more := ScanVoice(v, history[v], st.meter.beatsPerMeasure);
      alerts := alerts + more;
    }
    FatigueAllVoices(st, entries);
  }

  /** The warnings of the first j voices. */
  function FatigueUpTo(st: Setting, entries: seq<Entry>, j: nat): seq<Alert>
    requires j <= 4 && st.meter.beatsPerMeasure >= 1
  {
    if j == 0 then []
    else
      var v := VoiceOrder[j - 1];
      FatigueUpTo(st, entries, j - 1) + VoiceFatigue(v, HistoryOf(st, entries, v), st.meter.beatsPerMeasure)
  }

  lemma FatigueAllVoices(st: Setting, entries: seq<Entry>)
    requires st.meter.beatsPerMeasure >= 1 && |entries| >= 3
    ensures FatigueUpTo(st, entries, 4) == FatigueAlerts(st, entries)
  {
    var bpm := st.meter.beatsPerMeasure;
    var t, a, n, b := VoiceFatigue(Treble, HistoryOf(st, entries, Treble), bpm),
                      VoiceFatigue(Alto, HistoryOf(st, entries, Alto), bpm),
                      VoiceFatigue(Tenor, HistoryOf(st, entries, Tenor), bpm),
                      VoiceFatigue(Bass, HistoryOf(st, entries, Bass), bpm);
    assert VoiceOrder[0] == Treble && VoiceOrder[1] == Alto && VoiceOrder[2] == Tenor && VoiceOrder[3] == Bass;
    assert FatigueUpTo(st, entries, 1) == [] + t;
    assert FatigueUpTo(st, entries, 2) == [] + t + a;
    assert FatigueUpTo(st, entries, 3) == [] + t + a + n;
    assert FatigueUpTo(st, entries, 4) == [] + t + a + n + b;
    assert [] + t == t;
  }

  // ---------------------------------------------------------------------
  // Properties of the scan

  /** A warning's bars. */
  function AlertKey(a: Alert): (int, int)
    requires a.Fatigue?
  {
    (a.startMeasure, a.endMeasure)
  }

  /** The reported set holds exactly the bars of the warnings kept, each kept warning
      was drawn by one of the windows scanned, and no two kept warnings name the same
      bars. */
  lemma ScanSound(v: Voice, h: History, bpm: int, n: nat)
    requires n <= WindowCount(h) && bpm >= 1
    ensures var s := Scan(v, h, bpm, n);
            && (forall a :: a in s.alerts ==> a.Fatigue? && a.voice == v)
            && (forall key :: key in s.reported <==> exists a :: a in s.alerts && a.Fatigue? && AlertKey(a) == key)
            && (forall k, l :: 0 <= k < l < |s.alerts| ==> AlertKey(s.alerts[k]) != AlertKey(s.alerts[l]))
            && (forall a :: a in s.alerts ==> exists i :: 0 <= i < n && WindowAlert(v, h, i, bpm) == Some(a))
  {
    ScanKinds(v, h, bpm, n);
    ScanReported(v, h, bpm, n);
    ScanDistinct(v, h, bpm, n);
    ScanFrom(v, h, bpm, n);
  }

  /** A window's warning is a fatigue warning for the voice, naming the window's bars. */
  lemma WindowAlertShape(v: Voice, h: History, i: nat, bpm: int)
    requires i + WindowSize <= |h| && bpm >= 1 && WindowAlert(v, h, i, bpm).Some?
    ensures var a := WindowAlert(v, h, i, bpm).value;
            a.Fatigue? && a.voice == v && AlertKey(a) == Key(h, i, bpm)
  {
    VerdictIff(v, TallyOf(RangeOf(v), Window(h, i)), StartMeasure(h, i, bpm), EndMeasure(h, i, bpm));
  }

  lemma {:induction false} ScanKinds(v: Voice, h: History, bpm: int, n: nat)
    requires n <= WindowCount(h) && bpm >= 1
    ensures forall a :: a in Scan(v, h, bpm, n).alerts ==> a.Fatigue? && a.voice == v
    decreases n
  {
    if n > 0 {
      ScanKinds(v, h, bpm, n - 1);
      if WindowAlert(v, h, n - 1, bpm).Some? {
        WindowAlertShape(v, h, n - 1, bpm);
      }
    }
  }

  /** The reported bars are exactly those of the warnings kept. */
  ghost predicate ReportedMatches(s: ScanState) {
    forall key :: key in s.reported <==> exists a :: a in s.alerts && a.Fatigue? && AlertKey(a) == key
  }

  lemma {:induction false} ScanReported(v: Voice, h: History, bpm: int, n: nat)
    requires n <= WindowCount(h) && bpm >= 1
    ensures ReportedMatches(Scan(v, h, bpm, n))
    decreases n
  {
    if n > 0 {
      ScanReported(v, h, bpm, n - 1);
      var prev := Scan(v, h, bpm, n - 1);
      var a := WindowAlert(v, h, n - 1, bpm);
      if Key(h, n - 1, bpm) !in prev.reported && a.Some? {
        WindowAlertShape(v, h, n - 1, bpm);
        var s := Scan(v, h, bpm, n);
        assert s.alerts == prev.alerts + [a.value] && s.reported == prev.reported + {Key(h, n - 1, bpm)};
        forall key | key in s.reported
          ensures exists b :: b in s.alerts && b.Fatigue? && AlertKey(b) == key
        {
          if key in prev.reported {
            var b :| b in prev.alerts && b.Fatigue? && AlertKey(b) == key;
            assert b in s.alerts;
          } else {
            assert a.value in s.alerts;
          }
        }
      }
    }
  }

  /** Fatigue warnings, no two of which name the same bars. */
  ghost predicate DistinctKeys(alerts: seq<Alert>) {
    && (forall k :: 0 <= k < |alerts| ==> alerts[k].Fatigue?)
    && forall k, l :: 0 <= k < l < |alerts| ==> AlertKey(alerts[k]) != AlertKey(alerts[l])
  }

  lemma {:induction false} ScanDistinct(v: Voice, h: History, bpm: int, n: nat)
    requires n <= WindowCount(h) && bpm >= 1
    ensures DistinctKeys(Scan(v, h, bpm, n).alerts)
    decreases n
  {
    if n > 0 {
      ScanDistinct(v, h, bpm, n - 1);
      ScanReported(v, h, bpm, n - 1);
      var prev := Scan(v, h, bpm, n - 1);
      var key := Key(h, n - 1, bpm);
      var a := WindowAlert(v, h, n - 1, bpm);
      if key !in prev.reported && a.Some? {
        WindowAlertShape(v, h, n - 1, bpm);
        var alerts := prev.alerts + [a.value];
        assert Scan(v, h, bpm, n).alerts == alerts;
        forall k | 0 <= k < |prev.alerts|
          ensures AlertKey(prev.alerts[k]) != key
        {
          assert prev.alerts[k] in prev.alerts;
        }
        assert DistinctKeys(alerts) by {
          forall k, l | 0 <= k < l < |alerts|
            ensures AlertKey(alerts[k]) != AlertKey(alerts[l])
          {
            assert alerts[k] == prev.alerts[k];
            if l < |prev.alerts| {
              assert alerts[l] == prev.alerts[l];
            }
          }
        }
      }
    }
  }

  lemma {:induction false} ScanFrom(v: Voice, h: History, bpm: int, n: nat)
    requires n <= WindowCount(h) && bpm >= 1
    ensures forall a :: a in Scan(v, h, bpm, n).alerts ==> exists i :: 0 <= i < n && WindowAlert(v, h, i, bpm) == Some(a)
    decreases n
  {
    if n > 0 {
      ScanFrom(v, h, bpm, n - 1);
      var prev := Scan(v, h, bpm, n - 1);
      forall b | b in prev.alerts
        ensures exists i :: 0 <= i < n && WindowAlert(v, h, i, bpm) == Some(b)
      {
        var i :| 0 <= i < n - 1 && WindowAlert(v, h, i, bpm) == Some(b);
      }
    }
  }

  /** No window that draws a warning goes unreported: its bars are among those reported,
      by it or by an earlier window. */
  lemma {:induction false} ScanCovers(v: Voice, h: History, bpm: int, n: nat, i: nat)
    requires n <= WindowCount(h) && bpm >= 1
    requires i < n && WindowAlert(v, h, i, bpm).Some?
    ensures Key(h, i, bpm) in Scan(v, h, bpm, n).reported
    decreases n
  {
    if i < n - 1 {
      ScanCovers(v, h, bpm, n - 1, i);
    }
  }

  /** Fewer entries than a window draw no fatigue warning, whatever the pitches. */
  lemma ShortPieceNoFatigue(st: Setting, entries: seq<Entry>)
    requires st.meter.beatsPerMeasure >= 1 && |entries| < WindowSize
    ensures FatigueAlerts(st, entries) == []
  {
  }

  /** A voice that never leaves the middle eighty percent of its range is never warned. */
  lemma {:induction false} MiddleRangeNoFatigue(v: Voice, h: History, bpm: int, n: nat)
    requires n <= WindowCount(h) && bpm >= 1
    requires forall i :: 0 <= i < |h| && h[i].Some? ==>
               RangeOf(v).percentile10 <= h[i].value.written <= RangeOf(v).percentile90
    ensures Scan(v, h, bpm, n).alerts == []
    decreases n
  {
    if n > 0 {
      MiddleRangeNoFatigue(v, h, bpm, n - 1);
      var w := Window(h, n - 1);
      assert forall k :: 0 <= k < |w| ==> w[k] == h[n - 1 + k];
      NoExtremesCountZero(RangeOf(v), w);
      TallyConsistent(RangeOf(v), w);
    }
  }

  lemma {:induction false} NoExtremesCountZero(r: Range, w: History)
    requires forall k :: 0 <= k < |w| && w[k].Some? ==> r.percentile10 <= w[k].value.written <= r.percentile90
    ensures TallyOf(r, w).high == 0 && TallyOf(r, w).low == 0
    decreases |w|
  {
    if |w| > 0 {
      var init := w[..|w| - 1];
      assert forall k :: 0 <= k < |init| ==> init[k] == w[k];
      NoExtremesCountZero(r, init);
    }
  }
}
