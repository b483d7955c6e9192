/**
 * The fixed advisory strings of the three recommendation builders, as
 * enumerations. Each builder emits its advice in a fixed order of "slots";
 * two advice items that share a slot are mutually exclusive.
 */
module Advice {

  /** Advice of the environment analysis. */
  datatype EnvAdvice =
    | BrightenLight | SoftenLight
    | ReduceNoise
    | WarmUp | CoolDown
    | Humidify | Dehumidify
    | Ventilate

  /** Advice of the posture analysis. */
  datatype PostureAdvice = LumbarCushion | TimedReminder | MoveHourly | AdjustChairAndMonitor

  /** Advice of the study report. */
  datatype ReportAdvice =
    | TakeBreaks
    | NeckSupportChair
    | NoiseCancelling
    | BrightenLamp | AdjustCurtains
    | RaiseAcTemperature | LowerAcTemperature
    | UseHumidifier | DehumidifyOrVentilate

  function EnvSlot(a: EnvAdvice): nat
  {
    match a
    case BrightenLight => 0
    case SoftenLight => 0
    case ReduceNoise => 1
    case WarmUp => 2
    case CoolDown => 2
    case Humidify => 3
    case Dehumidify => 3
    case Ventilate => 4
  }

  function PostureSlot(a: PostureAdvice): nat
  {
    match a
    case LumbarCushion => 0
    case TimedReminder => 1
    case MoveHourly => 2
    case AdjustChairAndMonitor => 3
  }

  function ReportSlot(a: ReportAdvice): nat
  {
    match a
    case TakeBreaks => 0
    case NeckSupportChair => 1
    case NoiseCancelling => 2
    case BrightenLamp => 3
    case AdjustCurtains => 3
    case RaiseAcTemperature => 4
    case LowerAcTemperature => 4
    case UseHumidifier => 5
    case DehumidifyOrVentilate => 5
  }

  /**
   * Each item comes in a later slot than every item before it: no item
   * twice, and at most one item per slot.
   */
  predicate InSlotOrder<T>(slot: T -> nat, r: seq<T>)
  {
    forall i, j :: 0 <= i < j < |r| ==> slot(r[i]) < slot(r[j])
  }

  /** Appending items of later slots to a list in slot order keeps it in slot order. */
  lemma SlotOrderAppend<T>(slot: T -> nat, a: seq<T>, b: seq<T>, k: nat, k': nat)
    requires InSlotOrder(slot, a) && InSlotOrder(slot, b)
    requires k <= k'
    requires forall x :: x in a ==> slot(x) < k
    requires forall y :: y in b ==> k <= slot(y) < k'
    ensures InSlotOrder(slot, a + b)
    ensures forall x :: x in a + b ==> slot(x) < k'
  {
    forall i, j | 0 <= i < j < |a + b|
      ensures slot((a + b)[i]) < slot((a + b)[j])
    {
      if j < |a| {
      } else if i >= |a| {
        assert (a + b)[i] == b[i - |a|] && (a + b)[j] == b[j - |a|];
      } else {
        assert (a + b)[i] in a && (a + b)[j] in b;
      }
    }
  }

  /** The text the environment analysis returns for each advice. */
  function EnvText(a: EnvAdvice): string
  {
    match a
    case BrightenLight => "当前光线较暗，建议开启台灯或增加环境照明"
    case SoftenLight => "当前光线过强，建议适当调暗或使用窗帘调节"
    case ReduceNoise => "环境噪音较大，建议使用降噪耳机或更换安静的学习场所"
    case WarmUp => "室温偏低，建议适当提高空调温度或添加衣物"
    case CoolDown => "室温偏高，建议适当降低空调温度或开启风扇"
    case Humidify => "空气较干燥，建议使用加湿器改善环境"
    case Dehumidify => "湿度偏高，建议开启除湿或通风"
    case Ventilate => "建议每隔1小时打开窗户通风5-10分钟"
  }

  function PostureText(a: PostureAdvice): string
  {
    match a
    case LumbarCushion => "需要注意保持正确坐姿，建议使用护腰靠垫"
    case TimedReminder => "频繁出现不良坐姿，建议设置定时提醒"
    case MoveHourly => "每隔一小时起来活动5分钟"
    case AdjustChairAndMonitor => "调整椅子和显示器的高度，保持目视前方"
  }

  function ReportText(a: ReportAdvice): string
  {
    match a
    case TakeBreaks => "建议增加休息时间，每45分钟休息5分钟"
    case NeckSupportChair => "注意保持正确的坐姿，建议使用护颈椅"
    case NoiseCancelling => "环境噪音较大，建议使用降噪耳机"
    case BrightenLamp => "光线不足，建议调整台灯亮度"
    case AdjustCurtains => "光线过强，建议调整窗帘或台灯"
    case RaiseAcTemperature => "室温偏低，建议适当调高空调温度"
    case LowerAcTemperature => "室温偏高，建议适当调低空调温度"
    case UseHumidifier => "空气较干燥，建议使用加湿器"
    case DehumidifyOrVentilate => "湿度偏高，建议开启除湿或通风"
  }

  /** Distinct advice items have distinct texts, so a list of texts names its items. */
  lemma EnvTextInjective(a: EnvAdvice, b: EnvAdvice)
    ensures EnvText(a) == EnvText(b) ==> a == b
  {
  }

  lemma PostureTextInjective(a: PostureAdvice, b: PostureAdvice)
    ensures PostureText(a) == PostureText(b) ==> a == b
  {
  }

  lemma ReportTextInjective(a: ReportAdvice, b: ReportAdvice)
    ensures ReportText(a) == ReportText(b) ==> a == b
  {
  }

  /** The string array a builder returns: the text of each item, in order. */
  function EnvTexts(r: seq<EnvAdvice>): (t: seq<string>)
    ensures |t| == |r| && forall i :: 0 <= i < |r| ==> t[i] == EnvText(r[i])
  {
    if |r| == 0 then [] else [EnvText(r[0])] + EnvTexts(r[1..])
  }

  function PostureTexts(r: seq<PostureAdvice>): (t: seq<string>)
    ensures |t| == |r| && forall i :: 0 <= i < |r| ==> t[i] == PostureText(r[i])
  {
    if |r| == 0 then [] else [PostureText(r[0])] + PostureTexts(r[1..])
  }

  function ReportTexts(r: seq<ReportAdvice>): (t: seq<string>)
    ensures |t| == |r| && forall i :: 0 <= i < |r| ==> t[i] == ReportText(r[i])
  {
    if |r| == 0 then [] else [ReportText(r[0])] + ReportTexts(r[1..])
  }

  /** Two item lists with the same texts are the same list. */
  lemma EnvTextsInjective(r: seq<EnvAdvice>, r': seq<EnvAdvice>)
    requires EnvTexts(r) == EnvTexts(r')
    ensures r == r'
  {
    forall i | 0 <= i < |r|
      ensures r[i] == r'[i]
    {
      EnvTextInjective(r[i], r'[i]);
    }
  }

  lemma PostureTextsInjective(r: seq<PostureAdvice>, r': seq<PostureAdvice>)
    requires PostureTexts(r) == PostureTexts(r')
    ensures r == r'
  {
    forall i | 0 <= i < |r|
      ensures r[i] == r'[i]
    {
      PostureTextInjective(r[i], r'[i]);
    }
  }

  lemma ReportTextsInjective(r: seq<ReportAdvice>, r': seq<ReportAdvice>)
    requires ReportTexts(r) == ReportTexts(r')
    ensures r == r'
  {
    forall i | 0 <= i < |r|
      ensures r[i] == r'[i]
    {
      ReportTextInjective(r[i], r'[i]);
    }
  }

  /** An item's text is among a list's texts exactly when the item is in the list. */
  lemma EnvTextIn(r: seq<EnvAdvice>, a: EnvAdvice)
    ensures EnvText(a) in EnvTexts(r) <==> a in r
  {
    var t := EnvTexts(r);
    if EnvText(a) in t {
      var i :| 0 <= i < |t| && t[i] == EnvText(a);
      EnvTextInjective(r[i], a);
    }
    if a in r {
      var i :| 0 <= i < |r| && r[i] == a;
      assert t[i] == EnvText(a);
    }
  }
}
