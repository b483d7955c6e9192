/**
 * The rule-based focus score: start at 100 and subtract a fixed penalty for
 * each rule a biometric and an environment reading violate; no reading of
 * either kind means a score of zero.
 */
module Scoring {
  import opened Wrappers
  import opened Readings

  /** The four rules of the focus score. */
  datatype Penalty = HighHrv | HunchedPosture | LoudNoise | LowLight

  function Weight(p: Penalty): nat
  {
    match p
    case HighHrv => 20
    case HunchedPosture => 15
    case LoudNoise => 10
    case LowLight => 10
  }

  /** The rules that a pair of readings violate, in the order they are checked. */
  function AppliedPenalties(bio: BiometricReading, env: EnvironmentReading): (ps: seq<Penalty>)
    ensures HighHrv in ps <==> bio.hrv > 100.0
    ensures HunchedPosture in ps <==> bio.posture == Hunched
    ensures LoudNoise in ps <==> env.noiseLevel > 70.0
    ensures LowLight in ps <==> env.illuminance < 200.0
    ensures forall i, j :: 0 <= i < j < |ps| ==> ps[i] != ps[j]
  {
    (if bio.hrv > 100.0 then [HighHrv] else [])
    + (if bio.posture == Hunched then [HunchedPosture] else [])
    + (if env.noiseLevel > 70.0 then [LoudNoise] else [])
    + (if env.illuminance < 200.0 then [LowLight] else [])
  }

  function TotalWeight(ps: seq<Penalty>): nat
  {
    if ps == [] then 0 else Weight(ps[0]) + TotalWeight(ps[1..])
  }

  lemma {:induction false} TotalWeightAppend(a: seq<Penalty>, b: seq<Penalty>)
    ensures TotalWeight(a + b) == TotalWeight(a) + TotalWeight(b)
  {
    if a == [] {
      assert a + b == b;
    } else {
      assert (a + b)[1..] == a[1..] + b;
      TotalWeightAppend(a[1..], b);
    }
  }

  /** `Math.max(0, Math.min(100, x))`. */
  function Clamp(x: int): (r: int)
    ensures 0 <= r <= 100
    ensures 0 <= x <= 100 ==> r == x
    ensures x < 0 ==> r == 0
    ensures x > 100 ==> r == 100
  {
    if x < 0 then 0 else if x > 100 then 100 else x
  }

  /** The focus score of the latest biometric and environment readings, when there are such readings. */
  function FocusScore(bio: Option<BiometricReading>, env: Option<EnvironmentReading>): (score: int)
    ensures 0 <= score <= 100
    ensures bio.None? || env.None? ==> score == 0
  {
    if bio.None? || env.None? then 0
    else Clamp(100 - TotalWeight(AppliedPenalties(bio.value, env.value)))
  }

  /**
   * With both readings present the score is 100 minus 20 for hrv above 100,
   * 15 for a hunched posture, 10 for noise above 70 and 10 for illuminance
   * below 200; the clamp never takes effect.
   */
  lemma FocusScoreByRules(bio: BiometricReading, env: EnvironmentReading)
    ensures FocusScore(Some(bio), Some(env)) ==
      100
      - (if bio.hrv > 100.0 then 20 else 0)
      - (if bio.posture == Hunched then 15 else 0)
      - (if env.noiseLevel > 70.0 then 10 else 0)
      - (if env.illuminance < 200.0 then 10 else 0)
  {
    var a := if bio.hrv > 100.0 then [HighHrv] else [];
    var b := if bio.posture == Hunched then [HunchedPosture] else [];
    var c := if env.noiseLevel > 70.0 then [LoudNoise] else [];
    var d := if env.illuminance < 200.0 then [LowLight] else [];
    assert AppliedPenalties(bio, env) == a + b + c + d;
    TotalWeightAppend(a + b + c, d);
    TotalWeightAppend(a + b, c);
    TotalWeightAppend(a, b);
  }

  /** Present readings never score below 45, the score with every rule violated. */
  lemma FocusScoreAtLeast45(bio: BiometricReading, env: EnvironmentReading)
    ensures 45 <= FocusScore(Some(bio), Some(env))
    ensures FocusScore(Some(bio), Some(env)) == 45 <==>
      bio.hrv > 100.0 && bio.posture == Hunched && env.noiseLevel > 70.0 && env.illuminance < 200.0
  {
    FocusScoreByRules(bio, env);
  }

  /**
   * The thresholds are strict: readings at hrv 100, noise 70 and illuminance 200
   * (or better) with a good posture keep the full score, and only those do.
   */
  lemma FocusScorePerfect(bio: BiometricReading, env: EnvironmentReading)
    ensures FocusScore(Some(bio), Some(env)) == 100 <==>
      bio.hrv <= 100.0 && bio.posture == Good && env.noiseLevel <= 70.0 && env.illuminance >= 200.0
  {
    FocusScoreByRules(bio, env);
  }

  /** The step-by-step computation of the score, as the source writes it. */
  method CalculateFocusScore(bio: Option<BiometricReading>, env: Option<EnvironmentReading>)
    returns (score: int)
    ensures score == FocusScore(bio, env)
    ensures 0 <= score <= 100
  {
    if bio.None? || env.None? {
      return 0;
    }
    var b, e := bio.value, env.value;
    score := 100;
    if b.hrv > 100.0 {
      score := score - 20;
    }
    if b.posture == Hunched {
      score := score - 15;
    }
    if e.noiseLevel > 70.0 {
      score := score - 10;
    }
    if e.illuminance < 200.0 {
      score := score - 10;
    }
    FocusScoreByRules(b, e);
    score := if score > 100 then 100 else score;
    score := if score < 0 then 0 else score;
  }

  function First<T>(s: seq<T>): (r: Option<T>)
    ensures r.None? <==> |s| == 0
    ensures r.Some? ==> r.value == s[0]
  {
    if |s| == 0 then None else Some(s[0])
  }

  function Last<T>(s: seq<T>): (r: Option<T>)
    ensures r.None? <==> |s| == 0
    ensures r.Some? ==> r.value == s[|s| - 1]
  {
    if |s| == 0 then None else Some(s[|s| - 1])
  }

  /**
   * The live focus level: the store is queried newest first with a limit of
   * one, so the score uses the head of each list.
   */
  method FocusLevel(newestBiometrics: seq<BiometricReading>, newestEnvironment: seq<EnvironmentReading>)
    returns (score: int)
    ensures score == FocusScore(First(newestBiometrics), First(newestEnvironment))
    ensures |newestBiometrics| == 0 || |newestEnvironment| == 0 ==> score == 0
  {
    score := CalculateFocusScore(First(newestBiometrics), First(newestEnvironment));
  }

  /**
   * The focus score of a session: the samples of the session's time window,
   * in store order, and the score of the last one of each kind.
   */
  method SessionFocusScore(windowBiometrics: seq<BiometricReading>, windowEnvironment: seq<EnvironmentReading>)
    returns (score: int)
    ensures score == FocusScore(Last(windowBiometrics), Last(windowEnvironment))
    ensures |windowBiometrics| == 0 || |windowEnvironment| == 0 ==> score == 0
  {
    score := CalculateFocusScore(Last(windowBiometrics), Last(windowEnvironment));
  }
}
