/**
 * Aggregates over study sessions and environment samples used by the study
 * report: total study time in minutes, average focus score, the
 * "environment optimal" check, and a session's duration in seconds.
 */
module SessionMetrics {
  import opened Wrappers
  import opened Readings

  /** The fields of a stored study session that the report reads. */
  datatype SessionRecord = SessionRecord(startTime: Time, endTime: Option<Time>, focusScores: seq<real>)

  /** A session whose end time, if any, is not before its start time. */
  predicate Ordered(s: SessionRecord)
  {
    s.endTime.Some? ==> s.startTime <= s.endTime.value
  }

  /** Duration in seconds; absent (`null`) while the session has no end time. */
  function DurationSeconds(startTime: Time, endTime: Option<Time>): (d: Option<real>)
    ensures d.None? <==> endTime.None?
    ensures d.Some? ==> d.value * 1000.0 == (endTime.value - startTime) as real
    ensures d.Some? ==> (d.value >= 0.0 <==> startTime <= endTime.value)
  {
    if endTime.None? then None
    else Some((endTime.value - startTime) as real / 1000.0)
  }

  /** The minutes one session adds to the total: zero without an end time. */
  function StudyMinutes(s: SessionRecord): (m: real)
    ensures s.endTime.None? ==> m == 0.0
    ensures s.endTime.Some? ==> m * 60000.0 == (s.endTime.value - s.startTime) as real
    ensures Ordered(s) ==> m >= 0.0
  {
    var millis := if s.endTime.Some? then s.endTime.value - s.startTime else 0;
    millis as real / 60000.0
  }

  /** A finished session's minutes are its duration in seconds divided by 60. */
  lemma MinutesMatchDuration(s: SessionRecord)
    requires s.endTime.Some?
    ensures StudyMinutes(s) * 60.0 == DurationSeconds(s.startTime, s.endTime).value
  {
    var d := DurationSeconds(s.startTime, s.endTime).value;
    var m := StudyMinutes(s);
    assert m * 60000.0 == d * 1000.0;
    assert (m * 60.0) * 1000.0 == d * 1000.0;
  }

  /** The sum of every session's minutes, folded from the left. */
  function TotalStudyTime(sessions: seq<SessionRecord>): (total: real)
    ensures (forall i :: 0 <= i < |sessions| ==> sessions[i].endTime.None?) ==> total == 0.0
    ensures (forall i :: 0 <= i < |sessions| ==> Ordered(sessions[i])) ==> total >= 0.0
  {
    if |sessions| == 0 then 0.0
    else TotalStudyTime(sessions[..|sessions| - 1]) + StudyMinutes(sessions[|sessions| - 1])
  }

  lemma {:induction false} TotalStudyTimeAppend(a: seq<SessionRecord>, b: seq<SessionRecord>)
    ensures TotalStudyTime(a + b) == TotalStudyTime(a) + TotalStudyTime(b)
    decreases |b|
  {
    if b == [] {
      assert a + b == a;
    } else {
      var b' := b[..|b| - 1];
      assert (a + b)[..|a + b| - 1] == a + b';
      assert (a + b)[|a + b| - 1] == b[|b| - 1];
      TotalStudyTimeAppend(a, b');
    }
  }

  /** The sessions that have an end time, in their original order. */
  function Finished(sessions: seq<SessionRecord>): (r: seq<SessionRecord>)
    ensures forall i :: 0 <= i < |r| ==> r[i].endTime.Some?
    ensures forall s :: s in r ==> s in sessions
    ensures forall s :: s in sessions && s.endTime.Some? ==> s in r
  {
    if |sessions| == 0 then []
    else
      var last := sessions[|sessions| - 1];
      Finished(sessions[..|sessions| - 1]) + (if last.endTime.Some? then [last] else [])
  }

  /** Sessions still running contribute nothing: the total is that of the finished sessions alone. */
  lemma {:induction false} TotalStudyTimeOfFinished(sessions: seq<SessionRecord>)
    ensures TotalStudyTime(sessions) == TotalStudyTime(Finished(sessions))
  {
    if |sessions| > 0 {
      var init, last := sessions[..|sessions| - 1], sessions[|sessions| - 1];
      TotalStudyTimeOfFinished(init);
      var tail := if last.endTime.Some? then [last] else [];
      TotalStudyTimeAppend(Finished(init), tail);
      assert tail == [] ==> TotalStudyTime(tail) == 0.0;
      assert tail == [last] ==> TotalStudyTime(tail) == StudyMinutes(last) by {
        if tail == [last] {
          assert tail[..0] == [];
        }
      }
    }
  }

  /** A ten-minute session and a running one give a total of ten minutes. */
  lemma TotalStudyTimeExample()
    ensures TotalStudyTime([SessionRecord(0, Some(600000), []), SessionRecord(0, None, [])]) == 10.0
  {
    var ss := [SessionRecord(0, Some(600000), []), SessionRecord(0, None, [])];
    assert ss[..1][..0] == [];
  }

  /** All focus-score samples of all sessions, session by session (`flatMap`). */
  function AllFocusScores(sessions: seq<SessionRecord>): (scores: seq<real>)
    ensures forall i, k :: 0 <= i < |sessions| && 0 <= k < |sessions[i].focusScores| ==>
      sessions[i].focusScores[k] in scores
    ensures forall x :: x in scores ==> exists i :: 0 <= i < |sessions| && x in sessions[i].focusScores
    ensures |scores| == ScoreCount(sessions)
  {
    if |sessions| == 0 then []
    else
      ScoreCountFront(sessions);
      sessions[0].focusScores + AllFocusScores(sessions[1..])
  }

  /** The number of focus-score samples over all sessions, counted from the last session back. */
  function ScoreCount(sessions: seq<SessionRecord>): nat
  {
    if |sessions| == 0 then 0
    else ScoreCount(sessions[..|sessions| - 1]) + |sessions[|sessions| - 1].focusScores|
  }

  /** Counting from the front gives the same number. */
  lemma {:induction false} ScoreCountFront(sessions: seq<SessionRecord>)
    requires |sessions| > 0
    ensures ScoreCount(sessions) == |sessions[0].focusScores| + ScoreCount(sessions[1..])
    decreases |sessions|
  {
    if |sessions| > 1 {
      var init := sessions[..|sessions| - 1];
      ScoreCountFront(init);
      assert init[1..] == sessions[1..][..|sessions[1..]| - 1];
    } else {
      assert sessions[..0] == [] && sessions[1..] == [];
    }
  }

  /**
   * The concatenation keeps every sample once, in session order: the scores
   * of two runs of sessions are the scores of the first followed by those of
   * the second, and a single session contributes exactly its own list.
   */
  lemma {:induction false} AllFocusScoresAppend(a: seq<SessionRecord>, b: seq<SessionRecord>)
    ensures AllFocusScores(a + b) == AllFocusScores(a) + AllFocusScores(b)
    ensures |b| == 1 ==> AllFocusScores(b) == b[0].focusScores
  {
    if |b| == 1 {
      assert b[1..] == [];
    }
    if |a| > 0 {
      assert (a + b)[1..] == a[1..] + b;
      AllFocusScoresAppend(a[1..], b);
    } else {
      assert a + b == b;
    }
  }

  function Sum(xs: seq<real>): real
  {
    if |xs| == 0 then 0.0 else Sum(xs[..|xs| - 1]) + xs[|xs| - 1]
  }

  function MinOf(xs: seq<real>): (m: real)
    requires |xs| > 0
    ensures m in xs
    ensures forall i :: 0 <= i < |xs| ==> m <= xs[i]
  {
    if |xs| == 1 then xs[0]
    else
      var rest := MinOf(xs[1..]);
      if xs[0] <= rest then xs[0] else rest
  }

  function MaxOf(xs: seq<real>): (m: real)
    requires |xs| > 0
    ensures m in xs
    ensures forall i :: 0 <= i < |xs| ==> xs[i] <= m
  {
    if |xs| == 1 then xs[0]
    else
      var rest := MaxOf(xs[1..]);
      if xs[0] >= rest then xs[0] else rest
  }

  lemma {:induction false} SumBounds(xs: seq<real>, lo: real, hi: real)
    requires forall i :: 0 <= i < |xs| ==> lo <= xs[i] <= hi
    ensures |xs| as real * lo <= Sum(xs) <= |xs| as real * hi
  {
    if |xs| > 0 {
      SumBounds(xs[..|xs| - 1], lo, hi);
    }
  }

  /** The arithmetic mean of a list of numbers, or 0 for the empty list (no division happens then). */
  function Mean(xs: seq<real>): (m: real)
    ensures |xs| == 0 ==> m == 0.0
    ensures |xs| > 0 ==> MinOf(xs) <= m <= MaxOf(xs)
  {
    if |xs| == 0 then 0.0
    else
      MeanWithinRange(xs);
      Sum(xs) / |xs| as real
  }

  /** The mean of numbers that all lie in [lo, hi] lies in [lo, hi]. */
  lemma MeanOfBounded(xs: seq<real>, lo: real, hi: real)
    requires |xs| > 0
    requires forall i :: 0 <= i < |xs| ==> lo <= xs[i] <= hi
    ensures (Sum(xs) / |xs| as real) * |xs| as real == Sum(xs)
    ensures lo <= Sum(xs) / |xs| as real <= hi
  {
    SumBounds(xs, lo, hi);
    MeanBounds(Sum(xs), |xs| as real, lo, hi);
  }

  lemma MeanWithinRange(xs: seq<real>)
    requires |xs| > 0
    ensures (Sum(xs) / |xs| as real) * |xs| as real == Sum(xs)
    ensures MinOf(xs) <= Sum(xs) / |xs| as real <= MaxOf(xs)
  {
    MeanOfBounded(xs, MinOf(xs), MaxOf(xs));
  }

  /**
   * The average focus score of a set of sessions: the mean of all their
   * focus-score samples taken together, 0 when there are none.
   */
  function AverageFocusScore(sessions: seq<SessionRecord>): (avg: real)
    ensures |AllFocusScores(sessions)| == 0 ==> avg == 0.0
    ensures avg == Mean(AllFocusScores(sessions))
  {
    Mean(AllFocusScores(sessions))
  }

  lemma MeanBounds(total: real, n: real, lo: real, hi: real)
    requires n > 0.0
    requires n * lo <= total <= n * hi
    ensures (total / n) * n == total
    ensures lo <= total / n <= hi
  {
    assert (total / n) * n == total;
  }

  /** A sample within the optimal band: noise at most 60, illuminance between 300 and 1000. */
  predicate IsOptimalReading(e: EnvironmentReading)
  {
    e.noiseLevel <= 60.0 && e.illuminance >= 300.0 && e.illuminance <= 1000.0
  }

  /** Whether every sample is optimal (`every`, so true of no samples). */
  function CheckEnvironmentOptimal(envs: seq<EnvironmentReading>): (ok: bool)
    ensures ok <==> forall i :: 0 <= i < |envs| ==> IsOptimalReading(envs[i])
  {
    if |envs| == 0 then true
    else IsOptimalReading(envs[0]) && CheckEnvironmentOptimal(envs[1..])
  }
}
