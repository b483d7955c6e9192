/**
 * The live posture status: the latest (at most ten) biometric samples of the
 * user, newest first; the reminder is due when at least three of them report
 * a hunched posture.
 */
module PostureCheck {
  import opened Wrappers
  import opened Readings

  const WindowSize: nat := 10
  const ReminderThreshold: nat := 3

  /** The posture reported by the newest sample, or "unknown" when there is none. */
  datatype CurrentPosture = Reported(posture: Posture) | Unknown

  datatype PostureStatus = PostureStatus(
    currentPosture: CurrentPosture,
    needsReminder: bool,
    lastUpdate: Option<Time>)

  /** The first `WindowSize` samples of a newest-first stream (the query's limit). */
  function RecentWindow(newestFirst: seq<BiometricReading>): (w: seq<BiometricReading>)
    ensures |w| == if |newestFirst| < WindowSize then |newestFirst| else WindowSize
    ensures w == newestFirst[..|w|]
  {
    if |newestFirst| < WindowSize then newestFirst else newestFirst[..WindowSize]
  }

  /** The number of hunched samples (`filter(...).length`). */
  function CountHunched(s: seq<BiometricReading>): nat
  {
    if s == [] then 0
    else (if s[0].posture == Hunched then 1 else 0) + CountHunched(s[1..])
  }

  function PostureStatusOf(newestFirst: seq<BiometricReading>): (st: PostureStatus)
    ensures st.currentPosture == if |newestFirst| == 0 then Unknown else Reported(newestFirst[0].posture)
    ensures st.lastUpdate == if |newestFirst| == 0 then None else Some(newestFirst[0].timestamp)
  {
    var recent := RecentWindow(newestFirst);
    PostureStatus(
      if |recent| == 0 then Unknown else Reported(recent[0].posture),
      CountHunched(recent) >= ReminderThreshold,
      if |recent| == 0 then None else Some(recent[0].timestamp))
  }

  ghost predicate HunchedAt(s: seq<BiometricReading>, i: int)
  {
    0 <= i < |s| && s[i].posture == Hunched
  }

  lemma {:induction false} CountFromOne(s: seq<BiometricReading>, i: int)
    requires HunchedAt(s, i)
    ensures CountHunched(s) >= 1
  {
    if i > 0 {
      CountFromOne(s[1..], i - 1);
    }
  }

  lemma {:induction false} CountFromTwo(s: seq<BiometricReading>, i: int, j: int)
    requires i < j && HunchedAt(s, i) && HunchedAt(s, j)
    ensures CountHunched(s) >= 2
  {
    if i == 0 {
      CountFromOne(s[1..], j - 1);
    } else {
      CountFromTwo(s[1..], i - 1, j - 1);
    }
  }

  lemma {:induction false} CountFromThree(s: seq<BiometricReading>, i: int, j: int, k: int)
    requires i < j < k && HunchedAt(s, i) && HunchedAt(s, j) && HunchedAt(s, k)
    ensures CountHunched(s) >= 3
  {
    if i == 0 {
      CountFromTwo(s[1..], j - 1, k - 1);
    } else {
      CountFromThree(s[1..], i - 1, j - 1, k - 1);
    }
  }

  lemma {:induction false} WitnessOne(s: seq<BiometricReading>) returns (i: int)
    requires CountHunched(s) >= 1
    ensures HunchedAt(s, i)
  {
    if s[0].posture == Hunched {
      i := 0;
    } else {
      var i' := WitnessOne(s[1..]);
      i := i' + 1;
    }
  }

  lemma {:induction false} WitnessTwo(s: seq<BiometricReading>) returns (i: int, j: int)
    requires CountHunched(s) >= 2
    ensures i < j && HunchedAt(s, i) && HunchedAt(s, j)
  {
    if s[0].posture == Hunched {
      var j' := WitnessOne(s[1..]);
      i, j := 0, j' + 1;
    } else {
      var i', j' := WitnessTwo(s[1..]);
      i, j := i' + 1, j' + 1;
    }
  }

  lemma {:induction false} WitnessThree(s: seq<BiometricReading>) returns (i: int, j: int, k: int)
    requires CountHunched(s) >= 3
    ensures i < j < k && HunchedAt(s, i) && HunchedAt(s, j) && HunchedAt(s, k)
  {
    if s[0].posture == Hunched {
      var j', k' := WitnessTwo(s[1..]);
      i, j, k := 0, j' + 1, k' + 1;
    } else {
      var i', j', k' := WitnessThree(s[1..]);
      i, j, k := i' + 1, j' + 1, k' + 1;
    }
  }

  /**
   * The reminder is due exactly when three distinct samples among the ten
   * newest report a hunched posture.
   */
  lemma NeedsReminderIffThreeHunched(newestFirst: seq<BiometricReading>)
    ensures PostureStatusOf(newestFirst).needsReminder <==>
      exists i, j, k :: i < j < k < WindowSize &&
        HunchedAt(newestFirst, i) && HunchedAt(newestFirst, j) && HunchedAt(newestFirst, k)
  {
    var w := RecentWindow(newestFirst);
    if CountHunched(w) >= ReminderThreshold {
      var i, j, k := WitnessThree(w);
      assert HunchedAt(newestFirst, i) && HunchedAt(newestFirst, j) && HunchedAt(newestFirst, k);
    }
    if exists i, j, k :: i < j < k < WindowSize &&
        HunchedAt(newestFirst, i) && HunchedAt(newestFirst, j) && HunchedAt(newestFirst, k)
    {
      var i, j, k :| i < j < k < WindowSize &&
        HunchedAt(newestFirst, i) && HunchedAt(newestFirst, j) && HunchedAt(newestFirst, k);
      CountFromThree(w, i, j, k);
    }
  }

  /** Samples older than the ten newest do not affect the reminder. */
  lemma OlderSamplesIgnored(newestFirst: seq<BiometricReading>, older: seq<BiometricReading>)
    requires |newestFirst| >= WindowSize
    ensures PostureStatusOf(newestFirst + older) == PostureStatusOf(newestFirst)
  {
    assert (newestFirst + older)[..WindowSize] == newestFirst[..WindowSize];
  }

  /** Three hunched samples in a row, newest first: a reminder, and the current posture is hunched. */
  lemma ThreeHunchedInARow(newestFirst: seq<BiometricReading>)
    requires |newestFirst| >= 3
    requires forall i :: 0 <= i < 3 ==> newestFirst[i].posture == Hunched
    ensures PostureStatusOf(newestFirst).needsReminder
    ensures PostureStatusOf(newestFirst).currentPosture == Reported(Hunched)
  {
    NeedsReminderIffThreeHunched(newestFirst);
    assert HunchedAt(newestFirst, 0) && HunchedAt(newestFirst, 1) && HunchedAt(newestFirst, 2);
  }
}
