/** check_contrary_motion: between consecutive analysed beats, how often the treble and
    the tenor both move, and how often they move the same way. */
module Motion {
  import opened Base
  import opened Chords
  import opened Timeline
  import opened VoiceLeading

  /** Moves where both voices changed pitch, and those of them in the same direction. */
  datatype Counts = Counts(parallel: nat, total: nat)

  /** Both the treble and the tenor sound at both beats. */
  predicate Comparable(prev: Snapshot, cur: Snapshot) {
    cur.treble.Some? && cur.tenor.Some? && prev.treble.Some? && prev.tenor.Some?
  }

  /** One step from prev to cur: a move counts when both voices change pitch, and is
      parallel when they change in the same direction. */
  function StepCounts(c: Counts, prev: Snapshot, cur: Snapshot): Counts {
    if !Comparable(prev, cur) then c
    else
      var treble := cur.treble.value - prev.treble.value;
      var tenor := cur.tenor.value - prev.tenor.value;
      if treble != 0 && tenor != 0 then
        Counts(if (treble > 0 && tenor > 0) || (treble < 0 && tenor < 0) then c.parallel + 1 else c.parallel,
               c.total + 1)
      else c
  }

  function SnapshotAt(st: Setting, e: Entry): Snapshot {
    SnapshotOf(st.score.sounding(e.offset))
  }

  /** The counts over the steps that end at entries 1 .. n-1. */
  function MotionCounts(st: Setting, entries: seq<Entry>, n: nat): Counts
    requires n <= |entries|
  {
    if n <= 1 then Counts(0, 0)
    else StepCounts(MotionCounts(st, entries, n - 1), SnapshotAt(st, entries[n - 2]), SnapshotAt(st, entries[n - 1]))
  }

  /** More than sixty percent parallel moves, compared exactly as 5p > 3t. */
  predicate MostlyParallel(c: Counts) {
    c.total > 0 && 5 * c.parallel > 3 * c.total
  }

  /** check_contrary_motion: nothing for fewer than two entries, otherwise one warning
      when most of the moves were parallel. */
  function ContraryAlerts(st: Setting, entries: seq<Entry>): seq<Alert> {
    if |entries| < 2 then []
    else
      var c := MotionCounts(st, entries, |entries|);
      if MostlyParallel(c) then [ParallelMotion(c.parallel, c.total)] else []
  }

  method CheckContraryMotion(st: Setting, entries: seq<Entry>) returns (alerts: seq<Alert>)
    ensures alerts == ContraryAlerts(st, entries)
  {
    if |entries| < 2 {
      return [];
    }
    var parallel: nat, total: nat := 0, 0;
    for i := 1 to |entries|
      invariant Counts(parallel, total) == MotionCounts(st, entries, i)
    {
      var current := VoicePitches(st.score.sounding(entries[i].offset));
      var previous := VoicePitches(st.score.sounding(entries[i - 1].offset));
      var c := CountStep(Counts(parallel, total), previous, current);
      parallel, total := c.parallel, c.total;
    }
    alerts := [];
    if total > 0 && 5 * parallel > 3 * total {
      alerts := [ParallelMotion(parallel, total)];
    }
  }

  /** The body of the loop of check_contrary_motion. */
  method CountStep(c: Counts, previous: Snapshot, current: Snapshot) returns (d: Counts)
    ensures d == StepCounts(c, previous, current)
  {
    var parallel, total := c.parallel, c.total;
    if current.treble.Some? && current.tenor.Some? && previous.treble.Some? && previous.tenor.Some? {
      var trebleMotion := current.treble.value - previous.treble.value;
      var tenorMotion := current.tenor.value - previous.tenor.value;
      if trebleMotion != 0 && tenorMotion != 0 {
        total := total + 1;
        if (trebleMotion > 0 && tenorMotion > 0) || (trebleMotion < 0 && tenorMotion < 0) {
          parallel := parallel + 1;
        }
      }
    }
    return Counts(parallel, total);
  }

  /** Parallel moves are among the moves, and there is at most one move per step. */
  lemma {:induction false} CountsBounded(st: Setting, entries: seq<Entry>, n: nat)
    requires n <= |entries|
    ensures MotionCounts(st, entries, n).parallel <= MotionCounts(st, entries, n).total
    ensures MotionCounts(st, entries, n).total <= if n == 0 then 0 else n - 1
    decreases n
  {
    if n > 1 {
      CountsBounded(st, entries, n - 1);
    }
  }

  /** A step counts as a move exactly when both voices sound at both beats and both change
      pitch; the move is parallel exactly when they change in the same direction. */
  lemma StepIff(c: Counts, prev: Snapshot, cur: Snapshot)
    ensures var d := StepCounts(c, prev, cur);
            && (d.total == c.total + 1 <==>
                  Comparable(prev, cur) && cur.treble != prev.treble && cur.tenor != prev.tenor)
            && (d.total != c.total + 1 ==> d == c)
            && (d.parallel == c.parallel + 1 <==>
                  Comparable(prev, cur) &&
                  ((cur.treble.value > prev.treble.value && cur.tenor.value > prev.tenor.value) ||
                   (cur.treble.value < prev.treble.value && cur.tenor.value < prev.tenor.value)))
            && (d.parallel != c.parallel + 1 ==> d.parallel == c.parallel)
  {
  }

  /** The warning reports at least one parallel move, and at most one is given. */
  lemma WarningShape(st: Setting, entries: seq<Entry>)
    ensures |ContraryAlerts(st, entries)| <= 1
    ensures forall a :: a in ContraryAlerts(st, entries) ==>
              a.ParallelMotion? && 0 < a.parallel <= a.total && 5 * a.parallel > 3 * a.total
  {
    if |entries| >= 2 {
      CountsBounded(st, entries, |entries|);
    }
  }

  /** When the treble and tenor never move the same way, there is no warning. */
  lemma {:induction false} NoParallelNoWarning(st: Setting, entries: seq<Entry>, n: nat)
    requires n <= |entries|
    requires forall i :: 0 < i < n ==>
               var prev, cur := SnapshotAt(st, entries[i - 1]), SnapshotAt(st, entries[i]);
               Comparable(prev, cur) ==>
                 !((cur.treble.value > prev.treble.value && cur.tenor.value > prev.tenor.value) ||
                   (cur.treble.value < prev.treble.value && cur.tenor.value < prev.tenor.value))
    ensures MotionCounts(st, entries, n).parallel == 0
    ensures !MostlyParallel(MotionCounts(st, entries, n))
    decreases n
  {
    if n > 1 {
      NoParallelNoWarning(st, entries, n - 1);
    }
  }
}
