/**
 * The advisory lists of the analytics: environment advice (one item per
 * violated axis plus a closing ventilation reminder), posture advice
 * (closing with the chair and monitor advice) and the study report's list.
 * Each builder is a method that pushes onto a local list, as the source does,
 * and each is proved equal to a declarative description of the list.
 */
module Recommendations {
  import opened Readings
  import opened Bands
  import opened Advice
  import opened SessionMetrics

  // ---------------------------------------------------------------- environment

  /** The light item: brighten below the band, soften above it. */
  function LightAdvice(b: Band): (r: seq<EnvAdvice>)
    ensures |r| <= 1 && forall x :: x in r ==> EnvSlot(x) == 0
    ensures BrightenLight in r <==> b == Below
    ensures SoftenLight in r <==> b == Above
  {
    match b
    case Below => [BrightenLight]
    case Within => []
    case Above => [SoftenLight]
  }

  /** The noise item: only a noisy environment draws advice; a quiet one does not. */
  function NoiseAdvice(b: Band): (r: seq<EnvAdvice>)
    ensures |r| <= 1 && forall x :: x in r ==> EnvSlot(x) == 1
    ensures ReduceNoise in r <==> b == Above
  {
    if b == Above then [ReduceNoise] else []
  }

  function TemperatureAdvice(b: Band): (r: seq<EnvAdvice>)
    ensures |r| <= 1 && forall x :: x in r ==> EnvSlot(x) == 2
    ensures WarmUp in r <==> b == Below
    ensures CoolDown in r <==> b == Above
  {
    match b
    case Below => [WarmUp]
    case Within => []
    case Above => [CoolDown]
  }

  function HumidityAdvice(b: Band): (r: seq<EnvAdvice>)
    ensures |r| <= 1 && forall x :: x in r ==> EnvSlot(x) == 3
    ensures Humidify in r <==> b == Below
    ensures Dehumidify in r <==> b == Above
  {
    match b
    case Below => [Humidify]
    case Within => []
    case Above => [Dehumidify]
  }

  /**
   * The environment advice: one item for each axis whose band is violated,
   * in the order light, noise, temperature, humidity, then the ventilation
   * reminder, which is always last.
   */
  function EnvironmentAdvice(env: EnvironmentAverages): (r: seq<EnvAdvice>)
    ensures 1 <= |r| <= 5 && r[|r| - 1] == Ventilate
  {
    LightAdvice(EvaluateLightQuality(env.illuminance))
    + NoiseAdvice(EvaluateNoiseLevel(env.noiseLevel))
    + TemperatureAdvice(EvaluateTemperature(env.temperature))
    + HumidityAdvice(EvaluateHumidity(env.humidity))
    + [Ventilate]
  }

  /** Each advice item appears exactly when its threshold is crossed; ventilation always does. */
  lemma EnvironmentAdviceItems(env: EnvironmentAverages)
    ensures var r := EnvironmentAdvice(env);
      && (BrightenLight in r <==> env.illuminance < 300.0)
      && (SoftenLight in r <==> env.illuminance > 1000.0)
      && (ReduceNoise in r <==> env.noiseLevel > 65.0)
      && (WarmUp in r <==> env.temperature < 20.0)
      && (CoolDown in r <==> env.temperature > 26.0)
      && (Humidify in r <==> env.humidity < 30.0)
      && (Dehumidify in r <==> env.humidity > 60.0)
      && Ventilate in r
  {
    var l := LightAdvice(EvaluateLightQuality(env.illuminance));
    var n := NoiseAdvice(EvaluateNoiseLevel(env.noiseLevel));
    var t := TemperatureAdvice(EvaluateTemperature(env.temperature));
    var h := HumidityAdvice(EvaluateHumidity(env.humidity));
    var r := EnvironmentAdvice(env);
    assert r == l + n + t + h + [Ventilate];
    assert forall x :: x in r <==> x in l || x in n || x in t || x in h || x == Ventilate;
  }

  /**
   * The advice comes in axis order with at most one item per axis (so no
   * item twice): the list holds at most light, noise, temperature and
   * humidity advice and the ventilation reminder.
   */
  lemma EnvironmentAdviceOrdered(env: EnvironmentAverages)
    ensures InSlotOrder(EnvSlot, EnvironmentAdvice(env))
  {
    var l := LightAdvice(EvaluateLightQuality(env.illuminance));
    var n := NoiseAdvice(EvaluateNoiseLevel(env.noiseLevel));
    var t := TemperatureAdvice(EvaluateTemperature(env.temperature));
    var h := HumidityAdvice(EvaluateHumidity(env.humidity));
    SlotOrderAppend(EnvSlot, l, n, 1, 2);
    SlotOrderAppend(EnvSlot, l + n, t, 2, 3);
    SlotOrderAppend(EnvSlot, l + n + t, h, 3, 4);
    SlotOrderAppend(EnvSlot, l + n + t + h, [Ventilate], 4, 5);
  }

  /** The environment advice names exactly the axes the classifiers put outside their middle band. */
  lemma EnvironmentAdviceFollowsBands(env: EnvironmentAverages)
    ensures var r := EnvironmentAdvice(env);
      && (BrightenLight in r <==> EvaluateLightQuality(env.illuminance) == Below)
      && (SoftenLight in r <==> EvaluateLightQuality(env.illuminance) == Above)
      && (ReduceNoise in r <==> EvaluateNoiseLevel(env.noiseLevel) == Above)
      && (WarmUp in r <==> EvaluateTemperature(env.temperature) == Below)
      && (CoolDown in r <==> EvaluateTemperature(env.temperature) == Above)
      && (Humidify in r <==> EvaluateHumidity(env.humidity) == Below)
      && (Dehumidify in r <==> EvaluateHumidity(env.humidity) == Above)
  {
    EnvironmentAdviceItems(env);
  }

  /**
   * The strings the environment analysis returns: 1 to 5 of them, the
   * ventilation sentence last, and each sentence present exactly when its
   * threshold is crossed.
   */
  lemma EnvironmentTextsFollowThresholds(env: EnvironmentAverages)
    ensures var t := EnvTexts(EnvironmentAdvice(env));
      && 1 <= |t| <= 5 && t[|t| - 1] == EnvText(Ventilate)
      && (EnvText(BrightenLight) in t <==> env.illuminance < 300.0)
      && (EnvText(SoftenLight) in t <==> env.illuminance > 1000.0)
      && (EnvText(ReduceNoise) in t <==> env.noiseLevel > 65.0)
      && (EnvText(WarmUp) in t <==> env.temperature < 20.0)
      && (EnvText(CoolDown) in t <==> env.temperature > 26.0)
      && (EnvText(Humidify) in t <==> env.humidity < 30.0)
      && (EnvText(Dehumidify) in t <==> env.humidity > 60.0)
  {
    var r := EnvironmentAdvice(env);
    EnvironmentAdviceItems(env);
    EnvTextIn(r, BrightenLight);
    EnvTextIn(r, SoftenLight);
    EnvTextIn(r, ReduceNoise);
    EnvTextIn(r, WarmUp);
    EnvTextIn(r, CoolDown);
    EnvTextIn(r, Humidify);
    EnvTextIn(r, Dehumidify);
  }

  method GenerateEnvironmentRecommendations(env: EnvironmentAverages) returns (recs: seq<EnvAdvice>)
    ensures recs == EnvironmentAdvice(env)
  {
    ghost var l := LightAdvice(EvaluateLightQuality(env.illuminance));
    ghost var n := NoiseAdvice(EvaluateNoiseLevel(env.noiseLevel));
    ghost var t := TemperatureAdvice(EvaluateTemperature(env.temperature));
    ghost var h := HumidityAdvice(EvaluateHumidity(env.humidity));
    recs := [];
    if env.illuminance < 300.0 {
      recs := recs + [BrightenLight];
    } else if env.illuminance > 1000.0 {
      recs := recs + [SoftenLight];
    }
    assert recs == l;
    if env.noiseLevel > 65.0 {
      recs := recs + [ReduceNoise];
    }
    assert recs == l + n;
    if env.temperature < 20.0 {
      recs := recs + [WarmUp];
    } else if env.temperature > 26.0 {
      recs := recs + [CoolDown];
    }
    assert recs == l + n + t;
    if env.humidity < 30.0 {
      recs := recs + [Humidify];
    } else if env.humidity > 60.0 {
      recs := recs + [Dehumidify];
    }
    assert recs == l + n + t + h;
    recs := recs + [Ventilate];
  }

  /** The classification and advice of the environment analysis, for given averages. */
  datatype EnvironmentAnalysis = EnvironmentAnalysis(
    averages: EnvironmentAverages,
    lightQuality: Band,
    noiseQuality: Band,
    temperatureQuality: Band,
    humidityQuality: Band,
    recommendations: seq<EnvAdvice>)

  method AnalyzeEnvironment(averages: EnvironmentAverages) returns (a: EnvironmentAnalysis)
    ensures a.averages == averages
    ensures a.lightQuality == EvaluateLightQuality(averages.illuminance)
    ensures a.noiseQuality == EvaluateNoiseLevel(averages.noiseLevel)
    ensures a.temperatureQuality == EvaluateTemperature(averages.temperature)
    ensures a.humidityQuality == EvaluateHumidity(averages.humidity)
    ensures a.recommendations == EnvironmentAdvice(averages)
  {
    var light := EvaluateLightQuality(averages.illuminance);
    var noise := EvaluateNoiseLevel(averages.noiseLevel);
    var temperature := EvaluateTemperature(averages.temperature);
    var humidity := EvaluateHumidity(averages.humidity);
    var recs := GenerateEnvironmentRecommendations(averages);
    a := EnvironmentAnalysis(averages, light, noise, temperature, humidity, recs);
  }

  // ---------------------------------------------------------------- posture

  /** Posture needs improvement with more than five bad samples or less than 60 percent good posture. */
  predicate NeedsImprovement(goodPosturePercentage: real, badPostureCount: int)
  {
    badPostureCount > 5 || goodPosturePercentage < 60.0
  }

  /**
   * The posture advice: the cushion advice below 60 percent good posture,
   * the reminder and the hourly break together (and adjacent) above five bad
   * samples, and always, last, the chair and monitor advice.
   */
  function PostureAdvice(goodPosturePercentage: real, badPostureCount: int): (r: seq<PostureAdvice>)
    ensures 1 <= |r| <= 4 && r[|r| - 1] == AdjustChairAndMonitor
    ensures LumbarCushion in r <==> goodPosturePercentage < 60.0
    ensures TimedReminder in r <==> badPostureCount > 5
    ensures MoveHourly in r <==> badPostureCount > 5
    ensures badPostureCount > 5 ==>
      exists i :: 0 <= i < |r| - 1 && r[i] == TimedReminder && r[i + 1] == MoveHourly
    ensures InSlotOrder(PostureSlot, r)
  {
    var r := (if goodPosturePercentage < 60.0 then [LumbarCushion] else [])
      + (if badPostureCount > 5 then [TimedReminder, MoveHourly] else [])
      + [AdjustChairAndMonitor];
    assert badPostureCount > 5 ==> r[|r| - 3] == TimedReminder && r[|r| - 2] == MoveHourly;
    r
  }

  /** Posture needs improvement exactly when the advice holds more than the chair and monitor advice. */
  lemma NeedsImprovementIffExtraAdvice(goodPosturePercentage: real, badPostureCount: int)
    ensures NeedsImprovement(goodPosturePercentage, badPostureCount) <==>
      |PostureAdvice(goodPosturePercentage, badPostureCount)| > 1
  {
    var r := PostureAdvice(goodPosturePercentage, badPostureCount);
    if |r| > 1 {
      assert r[0] in r;
    }
  }

  method GeneratePostureRecommendations(goodPosturePercentage: real, badPostureCount: int)
    returns (recs: seq<PostureAdvice>)
    ensures recs == PostureAdvice(goodPosturePercentage, badPostureCount)
  {
    recs := [];
    if goodPosturePercentage < 60.0 {
      recs := recs + [LumbarCushion];
    }
    if badPostureCount > 5 {
      recs := recs + [TimedReminder];
      recs := recs + [MoveHourly];
    }
    recs := recs + [AdjustChairAndMonitor];
  }

  datatype PostureAnalysis = PostureAnalysis(
    goodPosturePercentage: real,
    badPostureCount: int,
    needsImprovement: bool,
    recommendations: seq<PostureAdvice>)

  /** The posture analysis for a given good-posture percentage and bad-posture count. */
  method AnalyzePosture(goodPosturePercentage: real, badPostureCount: int) returns (a: PostureAnalysis)
    ensures a.goodPosturePercentage == goodPosturePercentage && a.badPostureCount == badPostureCount
    ensures a.needsImprovement == NeedsImprovement(goodPosturePercentage, badPostureCount)
    ensures a.recommendations == PostureAdvice(goodPosturePercentage, badPostureCount)
    ensures a.needsImprovement <==> |a.recommendations| > 1
  {
    var needsImprovement := badPostureCount > 5 || goodPosturePercentage < 60.0;
    var recs := GeneratePostureRecommendations(goodPosturePercentage, badPostureCount);
    NeedsImprovementIffExtraAdvice(goodPosturePercentage, badPostureCount);
    a := PostureAnalysis(goodPosturePercentage, badPostureCount, needsImprovement, recs);
  }

  // ---------------------------------------------------------------- report

  function FocusItem(averageFocus: real): (r: seq<ReportAdvice>)
    ensures |r| <= 1 && forall x :: x in r ==> ReportSlot(x) == 0
    ensures TakeBreaks in r <==> averageFocus < 70.0
  {
    if averageFocus < 70.0 then [TakeBreaks] else []
  }

  function PostureItem(needsImprovement: bool): (r: seq<ReportAdvice>)
    ensures |r| <= 1 && forall x :: x in r ==> ReportSlot(x) == 1
    ensures NeckSupportChair in r <==> needsImprovement
  {
    if needsImprovement then [NeckSupportChair] else []
  }

  function NoiseItem(noise: Band): (r: seq<ReportAdvice>)
    ensures |r| <= 1 && forall x :: x in r ==> ReportSlot(x) == 2
    ensures NoiseCancelling in r <==> noise == Above
  {
    if noise == Above then [NoiseCancelling] else []
  }

  function LightItem(light: Band): (r: seq<ReportAdvice>)
    ensures |r| <= 1 && forall x :: x in r ==> ReportSlot(x) == 3
    ensures BrightenLamp in r <==> light == Below
    ensures AdjustCurtains in r <==> light == Above
  {
    match light
    case Below => [BrightenLamp]
    case Within => []
    case Above => [AdjustCurtains]
  }

  function TemperatureItem(temperature: Band): (r: seq<ReportAdvice>)
    ensures |r| <= 1 && forall x :: x in r ==> ReportSlot(x) == 4
    ensures RaiseAcTemperature in r <==> temperature == Below
    ensures LowerAcTemperature in r <==> temperature == Above
  {
    match temperature
    case Below => [RaiseAcTemperature]
    case Within => []
    case Above => [LowerAcTemperature]
  }

  function HumidityItem(humidity: Band): (r: seq<ReportAdvice>)
    ensures |r| <= 1 && forall x :: x in r ==> ReportSlot(x) == 5
    ensures UseHumidifier in r <==> humidity == Below
    ensures DehumidifyOrVentilate in r <==> humidity == Above
  {
    match humidity
    case Below => [UseHumidifier]
    case Within => []
    case Above => [DehumidifyOrVentilate]
  }

  /**
   * The report's advice: a break reminder below an average focus of 70, the
   * posture advice when posture needs improvement, and one item for each
   * violated environment band except a quiet one. There is no closing item.
   */
  function ReportAdviceList(
    averageFocus: real, needsImprovement: bool,
    light: Band, noise: Band, temperature: Band, humidity: Band): (r: seq<ReportAdvice>)
    ensures |r| <= 6
  {
    FocusItem(averageFocus) + PostureItem(needsImprovement) + NoiseItem(noise)
    + LightItem(light) + TemperatureItem(temperature) + HumidityItem(humidity)
  }

  /** Each report item appears exactly when its condition holds. */
  lemma ReportAdviceItems(
    averageFocus: real, needsImprovement: bool,
    light: Band, noise: Band, temperature: Band, humidity: Band)
    ensures var r := ReportAdviceList(averageFocus, needsImprovement, light, noise, temperature, humidity);
      && (TakeBreaks in r <==> averageFocus < 70.0)
      && (NeckSupportChair in r <==> needsImprovement)
      && (NoiseCancelling in r <==> noise == Above)
      && (BrightenLamp in r <==> light == Below)
      && (AdjustCurtains in r <==> light == Above)
      && (RaiseAcTemperature in r <==> temperature == Below)
      && (LowerAcTemperature in r <==> temperature == Above)
      && (UseHumidifier in r <==> humidity == Below)
      && (DehumidifyOrVentilate in r <==> humidity == Above)
  {
    var f, p, n := FocusItem(averageFocus), PostureItem(needsImprovement), NoiseItem(noise);
    var l, t, h := LightItem(light), TemperatureItem(temperature), HumidityItem(humidity);
    var r := ReportAdviceList(averageFocus, needsImprovement, light, noise, temperature, humidity);
    assert r == f + p + n + l + t + h;
    assert forall x :: x in r <==> x in f || x in p || x in n || x in l || x in t || x in h;
  }

  /** The report items come in a fixed order with at most one item per concern. */
  lemma ReportAdviceOrdered(
    averageFocus: real, needsImprovement: bool,
    light: Band, noise: Band, temperature: Band, humidity: Band)
    ensures InSlotOrder(ReportSlot,
      ReportAdviceList(averageFocus, needsImprovement, light, noise, temperature, humidity))
  {
    var f, p, n := FocusItem(averageFocus), PostureItem(needsImprovement), NoiseItem(noise);
    var l, t, h := LightItem(light), TemperatureItem(temperature), HumidityItem(humidity);
    SlotOrderAppend(ReportSlot, f, p, 1, 2);
    SlotOrderAppend(ReportSlot, f + p, n, 2, 3);
    SlotOrderAppend(ReportSlot, f + p + n, l, 3, 4);
    SlotOrderAppend(ReportSlot, f + p + n + l, t, 4, 5);
    SlotOrderAppend(ReportSlot, f + p + n + l + t, h, 5, 6);
  }

  /** The report advice is empty exactly when focus, posture and every environment axis are fine. */
  lemma ReportAdviceEmptyIff(
    averageFocus: real, needsImprovement: bool,
    light: Band, noise: Band, temperature: Band, humidity: Band)
    ensures ReportAdviceList(averageFocus, needsImprovement, light, noise, temperature, humidity) == [] <==>
      averageFocus >= 70.0 && !needsImprovement && noise != Above
      && light == Within && temperature == Within && humidity == Within
  {
    ReportAdviceItems(averageFocus, needsImprovement, light, noise, temperature, humidity);
    var r := ReportAdviceList(averageFocus, needsImprovement, light, noise, temperature, humidity);
    if r != [] {
      assert r[0] in r;
    }
  }

  /**
   * The report recommendations for a set of sessions, given the posture
   * figures and the environment averages that the analyses work on.
   */
  method GenerateRecommendations(
    sessions: seq<SessionRecord>,
    goodPosturePercentage: real, badPostureCount: int,
    averages: EnvironmentAverages) returns (recs: seq<ReportAdvice>)
    ensures recs == ReportAdviceList(
      AverageFocusScore(sessions),
      NeedsImprovement(goodPosturePercentage, badPostureCount),
      EvaluateLightQuality(averages.illuminance),
      EvaluateNoiseLevel(averages.noiseLevel),
      EvaluateTemperature(averages.temperature),
      EvaluateHumidity(averages.humidity))
  {
    recs := [];
    var avgFocusScore := AverageFocusScore(sessions);
    if avgFocusScore < 70.0 {
      recs := recs + [TakeBreaks];
    }
    assert recs == FocusItem(avgFocusScore);
    var posture := AnalyzePosture(goodPosturePercentage, badPostureCount);
    if posture.needsImprovement {
      recs := recs + [NeckSupportChair];
    }
    assert recs == FocusItem(avgFocusScore) + PostureItem(posture.needsImprovement);
    var env := AnalyzeEnvironment(averages);
    ghost var prefix := recs;
    if env.noiseQuality == Above {
      recs := recs + [NoiseCancelling];
    }
    assert recs == prefix + NoiseItem(env.noiseQuality);
    prefix := recs;
    if env.lightQuality == Below {
      recs := recs + [BrightenLamp];
    } else if env.lightQuality == Above {
      recs := recs + [AdjustCurtains];
    }
    assert recs == prefix + LightItem(env.lightQuality);
    prefix := recs;
    if env.temperatureQuality == Below {
      recs := recs + [RaiseAcTemperature];
    } else if env.temperatureQuality == Above {
      recs := recs + [LowerAcTemperature];
    }
    assert recs == prefix + TemperatureItem(env.temperatureQuality);
    prefix := recs;
    if env.humidityQuality == Below {
      recs := recs + [UseHumidifier];
    } else if env.humidityQuality == Above {
      recs := recs + [DehumidifyOrVentilate];
    }
    assert recs == prefix + HumidityItem(env.humidityQuality);
  }

  /**
   * For the same averages, the report and the environment analysis flag the
   * same light, noise, temperature and humidity problems.
   */
  lemma ReportAgreesWithEnvironmentAdvice(
    averageFocus: real, needsImprovement: bool, env: EnvironmentAverages)
    ensures var e := EnvironmentAdvice(env);
      var r := ReportAdviceList(averageFocus, needsImprovement,
        EvaluateLightQuality(env.illuminance), EvaluateNoiseLevel(env.noiseLevel),
        EvaluateTemperature(env.temperature), EvaluateHumidity(env.humidity));
      && (BrightenLight in e <==> BrightenLamp in r)
      && (SoftenLight in e <==> AdjustCurtains in r)
      && (ReduceNoise in e <==> NoiseCancelling in r)
      && (WarmUp in e <==> RaiseAcTemperature in r)
      && (CoolDown in e <==> LowerAcTemperature in r)
      && (Humidify in e <==> UseHumidifier in r)
      && (Dehumidify in e <==> DehumidifyOrVentilate in r)
  {
    EnvironmentAdviceFollowsBands(env);
    ReportAdviceItems(averageFocus, needsImprovement,
      EvaluateLightQuality(env.illuminance), EvaluateNoiseLevel(env.noiseLevel),
      EvaluateTemperature(env.temperature), EvaluateHumidity(env.humidity));
  }
}
