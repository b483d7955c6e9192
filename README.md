# StudyMind analytics and task sessions in Dafny

StudyMind is a study-assistant backend. A desk lamp sends environment samples
(illuminance, temperature, humidity, noise) and a smartwatch sends biometric
samples (heart rate, HRV, posture). The server turns these into a focus
score, a posture reminder, environment and posture analyses and a study
report. It also runs a small state machine for study tasks and their
sessions, and a table of WebSocket clients that receive task updates.

The project models these two parts.

- **Analytics** (`src/api/analytics.ts`):
  - the rule-based focus score;
  - the four three-band classifiers;
  - the three list builders for environment, posture and report advice, and the `needsImprovement` rule;
  - total study time, average focus score, the environment-optimal check and session duration;
  - the "needs reminder" rule of the live posture status.
- **Tasks** (`src/api/tasks.ts`):
  - creating, starting, pausing and completing a task;
  - session statistics;
  - `registerTaskClient` and `notifyTaskUpdate` over the `taskClients` map.

Modules, dependencies first:

- wrappers.dfy, module `Wrappers`: `Option`, `Result`.
- readings.dfy, module `Readings`: sample records (timestamps are integer milliseconds, measurements are `real`).
- bands.dfy, module `Bands`: the classifiers and their labels.
- scoring.dfy, module `Scoring`: the focus score.
- advice.dfy, module `Advice`: the advice items, their texts and the slot order they come in.
- session_metrics.dfy, module `SessionMetrics`: duration, total study time, mean focus score, optimal check.
- posture_check.dfy, module `PostureCheck`: the `/posture` status.
- recommendations.dfy, module `Recommendations`: the three list builders and the two analyses.
- tasks.dfy, module `Tasks`: class `TaskBoard` holding the task and session collections.
- notifier.dfy, module `Notifier`: class `TaskClients` holding the client table.

How the source maps onto Dafny:

- Each list builder in the source pushes onto a local array. Here it is a method that appends step by step. The method is proved equal to a declarative function, and the properties are proved about that function.
- The builders return lists of advice items. `EnvTexts`, `PostureTexts` and `ReportTexts` turn a list into the source's exact strings, one per item and in order. Distinct items have distinct strings, so the string array and the item list determine each other.
- The score computation that decrements a local variable is a method proved equal to the function `FocusScore`.
- The task handlers change MongoDB documents in place. Here they are methods of a class whose fields are a map of tasks and a map of sessions.
  - Fresh ObjectIds come from a counter.
  - The current time is a `now` parameter.
  - Each handler returns `Result`, whose failure carries the HTTP status and message of the source's `AppError`.
- `taskClients` is a class holding a map from key to socket id. Each socket is a value with:
  - a ready state;
  - a log of sent messages;
  - the keys its close listeners remove.

Where the code and its documentation differ, the model follows the code.

- The report's noise item reacts only to `noisy`. A `quiet` reading draws no advice (src/api/analytics.ts:476).
- `checkEnvironmentOptimal` caps noise at 60 where the classifier's middle band goes up to 65. Nothing calls it.
- The session status `completed` is the constructor `Finished`, to keep it apart from the task status `Completed`. The status `paused` is declared but never set by any handler.

## Model

| member | source | states |
|---|---|---|
| Bands.EvaluateLightQuality | src/api/analytics.ts:333-337 | too dark exactly below 300, too bright exactly above 1000, optimal exactly on [300, 1000] including both boundaries |
| Bands.EvaluateNoiseLevel | src/api/analytics.ts:340-344 | quiet exactly below 35, noisy exactly above 65, moderate exactly on [35, 65] |
| Bands.EvaluateTemperature | src/api/analytics.ts:347-351 | cold exactly below 20, hot exactly above 26, comfortable exactly on [20, 26] |
| Bands.EvaluateHumidity | src/api/analytics.ts:354-358 | dry exactly below 30, humid exactly above 60, comfortable exactly on [30, 60] |
| Scoring.AppliedPenalties | src/api/analytics.ts:256-263 | each of the four penalties is applied exactly when its strict threshold is crossed (hrv > 100, hunched, noise > 70, illuminance < 200), and none twice |
| Scoring.TotalWeightAppend | src/api/analytics.ts:256-263 | the penalty total of two groups of rules is the sum of their totals |
| Scoring.Clamp | src/api/analytics.ts:265 | the result is 0 below 0, 100 above 100 and the input itself on [0, 100] |
| Scoring.FocusScore | src/api/analytics.ts:250-266 | the score lies in [0, 100] and is 0 when either reading is absent |
| Scoring.FocusScoreByRules | src/api/analytics.ts:253-265 | with both readings present the score is 100 minus 20 for hrv > 100, 15 for hunched, 10 for noise > 70 and 10 for illuminance < 200 |
| Scoring.FocusScoreAtLeast45 | src/api/analytics.ts:253-265 | with both readings present the score is at least 45, and it is exactly 45 iff all four rules are violated |
| Scoring.FocusScorePerfect | src/api/analytics.ts:256-263 | the score is 100 iff hrv <= 100, posture good, noise <= 70 and illuminance >= 200, so values on the thresholds cost nothing |
| Scoring.CalculateFocusScore | src/api/analytics.ts:250-266 | the step-by-step decrements and the clamp compute `FocusScore`, which lies in [0, 100] |
| Scoring.First | src/api/analytics.ts:47 | the first sample of a newest-first list, absent exactly when the list is empty |
| Scoring.Last | src/api/analytics.ts:139-142 | the last sample of a list, absent exactly when the list is empty |
| Scoring.FocusLevel | src/api/analytics.ts:33-49 | the live focus level is the score of the newest sample of each kind, and 0 when either kind has none |
| Scoring.SessionFocusScore | src/api/analytics.ts:138-142 | a session's focus score is the score of the last sample of each kind in its window, and 0 when either kind has none |
| SessionMetrics.DurationSeconds | src/api/tasks.ts:273-274 | the duration is absent exactly when there is no end time; otherwise it times 1000 is end minus start, and it is non-negative iff start <= end |
| SessionMetrics.StudyMinutes | src/api/analytics.ts:437-440 | a session without end time adds 0 minutes; otherwise minutes times 60000 is end minus start, and the minutes are non-negative when start <= end |
| SessionMetrics.MinutesMatchDuration | src/api/analytics.ts:149-150 | a finished session's study minutes times 60 equal its duration in seconds |
| SessionMetrics.TotalStudyTime | src/api/analytics.ts:435-442 | the total is 0 when no session has an end time (in particular for no sessions) and non-negative when every session ends after it starts |
| SessionMetrics.TotalStudyTimeAppend | src/api/analytics.ts:436-441 | the total over two lists of sessions is the sum of their totals |
| SessionMetrics.Finished | src/api/analytics.ts:437-439 | a session is kept iff it is in the input and has an end time |
| SessionMetrics.TotalStudyTimeOfFinished | src/api/analytics.ts:437-439 | the total equals the total over the finished sessions alone: running sessions contribute nothing |
| SessionMetrics.TotalStudyTimeExample | src/api/analytics.ts:435-442 | a ten-minute session and a running one give a total of exactly 10 minutes |
| SessionMetrics.AllFocusScores | src/api/analytics.ts:446 | every focus-score sample of every session is in the concatenation, nothing else is, and its length is the total number of samples |
| SessionMetrics.ScoreCountFront | src/api/analytics.ts:446 | the number of samples is the first session's count plus the rest's |
| SessionMetrics.AllFocusScoresAppend | src/api/analytics.ts:446 | the scores of two runs of sessions are those of the first followed by those of the second, and one session gives exactly its own list, so every sample is kept once and in order |
| SessionMetrics.MinOf | src/api/analytics.ts:447 | the minimum is one of the scores and no score is smaller |
| SessionMetrics.MaxOf | src/api/analytics.ts:447 | the maximum is one of the scores and no score is larger |
| SessionMetrics.SumBounds | src/api/analytics.ts:447 | the sum of n numbers in [lo, hi] lies in [n * lo, n * hi] |
| SessionMetrics.Mean | src/api/analytics.ts:447 | the mean of no numbers is 0; otherwise it lies between the smallest and the largest number |
| SessionMetrics.MeanOfBounded | src/api/analytics.ts:447 | the mean of non-empty numbers in [lo, hi] lies in [lo, hi] and times the count gives back the sum |
| SessionMetrics.MeanWithinRange | src/api/analytics.ts:447 | the mean of non-empty numbers times their count is their sum, and it lies between their minimum and maximum |
| SessionMetrics.MeanBounds | src/api/analytics.ts:447 | a total between n * lo and n * hi divided by n > 0 lies in [lo, hi] |
| SessionMetrics.AverageFocusScore | src/api/analytics.ts:445-448 | the average is 0 when there are no scores at all, and otherwise the mean of all scores taken together |
| SessionMetrics.CheckEnvironmentOptimal | src/api/analytics.ts:451-457 | true iff every sample has noise <= 60 and illuminance in [300, 1000]; true of no samples |
| PostureCheck.RecentWindow | src/api/analytics.ts:57-61 | the window is the newest min(10, n) samples of the stream |
| PostureCheck.PostureStatusOf | src/api/analytics.ts:66-70 | the current posture and last update come from the newest sample, and are unknown and absent when there is none |
| PostureCheck.CountFromOne | src/api/analytics.ts:63 | one hunched sample makes the count at least 1 |
| PostureCheck.CountFromTwo | src/api/analytics.ts:63 | two distinct hunched samples make the count at least 2 |
| PostureCheck.CountFromThree | src/api/analytics.ts:63 | three distinct hunched samples make the count at least 3 |
| PostureCheck.WitnessOne | src/api/analytics.ts:63 | a count of at least 1 yields a hunched position |
| PostureCheck.WitnessTwo | src/api/analytics.ts:63 | a count of at least 2 yields two hunched positions i < j |
| PostureCheck.WitnessThree | src/api/analytics.ts:63 | a count of at least 3 yields three hunched positions i < j < k |
| PostureCheck.NeedsReminderIffThreeHunched | src/api/analytics.ts:57-64 | the reminder is due iff three distinct samples among the ten newest are hunched |
| PostureCheck.OlderSamplesIgnored | src/api/analytics.ts:57-61 | with at least ten samples, anything older does not change the status |
| PostureCheck.ThreeHunchedInARow | tests/test_study_session.py:146-157 | three hunched samples as the newest give a reminder and the current posture hunched |
| Advice.EnvTextInjective | src/api/analytics.ts:371-396 | distinct environment items have distinct texts |
| Advice.PostureTextInjective | src/api/analytics.ts:287-295 | distinct posture items have distinct texts |
| Advice.ReportTextInjective | src/api/analytics.ts:465-498 | distinct report items have distinct texts |
| Advice.EnvTexts | src/api/analytics.ts:367-398 | the returned strings are the texts of the items, one per item, in order |
| Advice.PostureTexts | src/api/analytics.ts:284-297 | the returned strings are the texts of the items, one per item, in order |
| Advice.ReportTexts | src/api/analytics.ts:461-501 | the returned strings are the texts of the items, one per item, in order |
| Advice.EnvTextsInjective | src/api/analytics.ts:367-398 | two environment item lists with the same strings are the same list |
| Advice.PostureTextsInjective | src/api/analytics.ts:284-297 | two posture item lists with the same strings are the same list |
| Advice.ReportTextsInjective | src/api/analytics.ts:461-501 | two report item lists with the same strings are the same list |
| Advice.EnvTextIn | src/api/analytics.ts:367-398 | an item's text is among the strings iff the item is in the list |
| Bands.LabelsDistinct | src/api/analytics.ts:333-358 | each classifier reports its three bands under three distinct labels |
| Bands.LabelsByThreshold | src/api/analytics.ts:333-358 | the label reported for each axis as a function of the raw value, boundaries in the middle label |
| Recommendations.EnvironmentTextsFollowThresholds | src/api/analytics.ts:361-399 | the returned strings number 1 to 5, end with the ventilation sentence, and each other sentence is present iff its threshold is crossed |
| Advice.SlotOrderAppend | src/api/analytics.ts:367-398 | two lists each in slot order, with all slots of the first below those of the second, give a list in slot order |
| Recommendations.LightAdvice | src/api/analytics.ts:370-374 | at most one light item: brighten exactly when too dark, soften exactly when too bright |
| Recommendations.NoiseAdvice | src/api/analytics.ts:377-379 | at most one noise item, present exactly when noisy (a quiet reading draws none) |
| Recommendations.TemperatureAdvice | src/api/analytics.ts:382-386 | at most one temperature item: warm up exactly when cold, cool down exactly when hot |
| Recommendations.HumidityAdvice | src/api/analytics.ts:389-393 | at most one humidity item: humidify exactly when dry, dehumidify exactly when humid |
| Recommendations.EnvironmentAdvice | src/api/analytics.ts:361-399 | the list has 1 to 5 items and always ends with the ventilation reminder |
| Recommendations.EnvironmentAdviceItems | src/api/analytics.ts:370-396 | each item is present iff its raw threshold is crossed (illuminance < 300 or > 1000, noise > 65, temperature < 20 or > 26, humidity < 30 or > 60); ventilation always is |
| Recommendations.EnvironmentAdviceOrdered | src/api/analytics.ts:369-396 | items come in the order light, noise, temperature, humidity, ventilation, with at most one per axis |
| Recommendations.EnvironmentAdviceFollowsBands | src/api/analytics.ts:309-312 | each environment item is present iff the corresponding classifier puts its axis on that side of the middle band |
| Recommendations.GenerateEnvironmentRecommendations | src/api/analytics.ts:361-399 | the pushes build exactly `EnvironmentAdvice` |
| Recommendations.AnalyzeEnvironment | src/api/analytics.ts:301-330 | the four qualities are the classifiers applied to the averages, and the recommendations are the environment advice for them |
| Recommendations.PostureAdvice | src/api/analytics.ts:283-298 | 1 to 4 items ending with the chair and monitor advice; the cushion item iff good posture < 60 percent; the reminder and hourly break items both iff bad count > 5, side by side; in fixed order |
| Recommendations.NeedsImprovementIffExtraAdvice | src/api/analytics.ts:272 | posture needs improvement (bad count > 5 or good posture < 60 percent) iff the advice holds more than the chair and monitor item |
| Recommendations.GeneratePostureRecommendations | src/api/analytics.ts:283-298 | the pushes build exactly `PostureAdvice` |
| Recommendations.AnalyzePosture | src/api/analytics.ts:269-280 | the analysis carries its inputs, `needsImprovement` by the rule, the posture advice, and `needsImprovement` iff there is more than the closing advice |
| Recommendations.FocusItem | src/api/analytics.ts:464-466 | the break reminder is present exactly when the average focus is below 70 |
| Recommendations.PostureItem | src/api/analytics.ts:469-471 | the neck-support advice is present exactly when posture needs improvement |
| Recommendations.NoiseItem | src/api/analytics.ts:476-478 | the noise-cancelling advice is present exactly when noisy |
| Recommendations.LightItem | src/api/analytics.ts:481-485 | the lamp advice exactly when too dark, the curtains advice exactly when too bright |
| Recommendations.TemperatureItem | src/api/analytics.ts:488-492 | raise the air conditioning exactly when cold, lower it exactly when hot |
| Recommendations.HumidityItem | src/api/analytics.ts:495-499 | the humidifier exactly when dry, dehumidify or ventilate exactly when humid |
| Recommendations.ReportAdviceList | src/api/analytics.ts:460-502 | the report advice has at most six items |
| Recommendations.ReportAdviceItems | src/api/analytics.ts:463-499 | each report item is present iff its condition holds |
| Recommendations.ReportAdviceOrdered | src/api/analytics.ts:463-499 | report items come in the order focus, posture, noise, light, temperature, humidity, at most one each |
| Recommendations.ReportAdviceEmptyIff | src/api/analytics.ts:460-502 | the report advice is empty iff focus >= 70, posture is fine, it is not noisy and light, temperature and humidity are all in their middle band |
| Recommendations.GenerateRecommendations | src/api/analytics.ts:460-502 | the pushes build exactly the report advice for the sessions' average focus, the posture rule and the classified averages |
| Recommendations.ReportAgreesWithEnvironmentAdvice | src/api/analytics.ts:473-499 | for the same averages, the report and the environment advice flag the same light, noise, temperature and humidity problems |
| Tasks.NewSession | src/api/tasks.ts:147-154 | a new session belongs to the task and its user, starts now, is active, has no end time, score 0 and no interruptions |
| Tasks.TaskBoard.constructor | src/api/tasks.ts:106 | stands for the empty `tasks` and `study_sessions` collections the handlers read and write; the board starts valid |
| Tasks.TaskBoard.AtMostOneActive | src/api/tasks.ts:142-168 | on a valid board, two active sessions of the same task are the same session |
| Tasks.TaskBoard.CreateTask | src/api/tasks.ts:99-110 | a fresh id maps to a pending task without session or completion time; sessions are untouched; validity is kept |
| Tasks.TaskBoard.StartSession | src/api/tasks.ts:130-174 | missing task gives 404 and an in-progress task 400, both changing nothing; otherwise a fresh session is added and the task becomes in progress with that session as current; validity is kept |
| Tasks.TaskBoard.PauseSession | src/api/tasks.ts:177-210 | missing task gives 404 and no current session 400, both changing nothing; otherwise one manual pause is appended to the current session's log and its update time set, all else unchanged |
| Tasks.TaskBoard.CompleteSession | src/api/tasks.ts:213-256 | 404 and 400 as for pause; otherwise the session gets an end time and finishes, and the task is completed with a completion time and no current session |
| Tasks.TaskBoard.GetSessionStats | src/api/tasks.ts:259-281 | unknown session gives 404; otherwise the duration rule, the log length, the score and the status; duration absent iff no end time |
| Tasks.StartPausePauseComplete | src/api/tasks.ts:177-256 | two pauses then completion leave exactly 2 interruptions, a 60-second duration and a completed task without current session |
| Tasks.CompletedTaskRefusesPause | src/api/tasks.ts:189-190 | after completion a further pause or complete fails with 400 "No active session found" |
| Tasks.StartTwiceAndRestart | src/api/tasks.ts:142-168 | a second start while in progress fails with 400; a completed task can be started again with a new session, and the old session stays finished |
| Tasks.MissingTask | src/api/tasks.ts:138-139 | start, pause and complete on an unknown task all fail with 404, as do stats of an unknown session |
| Notifier.RemoveKeys | src/api/tasks.ts:79-80 | removes exactly the listed keys and keeps every other entry as it was |
| Notifier.RemoveOwnKeys | src/api/tasks.ts:79-80 | removes a listed key only if it still names the closing socket, and keeps every other entry |
| Notifier.TaskClients.constructor | src/api/tasks.ts:74 | the table starts empty and valid |
| Notifier.TaskClients.Connect | src/index.ts:68 | a new open socket with a fresh id, nothing sent and no listeners |
| Notifier.TaskClients.Register | src/api/tasks.ts:76-85 | the key now names the socket, replacing any earlier entry, and the socket gains a close listener for the key |
| Notifier.TaskClients.Notify | src/api/tasks.ts:87-92 | delivered iff the key is registered and its socket is open; then the message is appended to that socket's log; otherwise nothing changes |
| Notifier.TaskClients.BeginClose | src/api/tasks.ts:89 | a closing socket is no longer open; the table is unchanged |
| Notifier.TaskClients.CloseAsWritten | src/api/tasks.ts:79-82 | the socket is closed and every key its listeners hold is removed, whatever socket it now names |
| Notifier.TaskClients.Close | src/api/tasks.ts:79-82 | the socket is closed, no key names it afterwards, and every entry naming another socket survives unchanged |
| Notifier.StaleCloseAsWritten | src/api/tasks.ts:76-82 | two sockets registered in turn for one user, the first then closing: as written the update is not delivered though the second socket is open |
| Notifier.StaleCloseCorrected | src/api/tasks.ts:76-82 | the same sequence with the corrected listener delivers the update to the second socket |
| Notifier.NotifyAfterClose | src/api/tasks.ts:87-92 | once the only socket of a key has closed, an update to it is not delivered |

## Left out

- MongoDB queries and updates, ObjectId parsing, Hono routing and context, JSON (de)serialisation. The handlers are methods on in-memory maps; store queries become the newest-first or window lists the methods take.
- `Math.random` in `analyzePosture` and `analyzeEnvironment`. The random good-posture percentage, bad-posture count and averages are parameters of `AnalyzePosture`, `AnalyzeEnvironment` and `GenerateRecommendations`.
- `generateInsights`, which returns a constant list, and `generateReport`, which only puts other results together.
- Task listing (`/user/:userId`) and the spread of validated request fields into a task. Only user id and title are kept.
- The 404 "Study session not found" of the per-session analytics routes is not modelled. It is a store lookup; the session's window of samples is a parameter.
- The clock. Times are parameters and are not required to increase, so "end time not before start time" is not an invariant. The duration and minutes contracts state the sign in terms of the two times.
- Concurrency: two handlers interleaving, for example two starts racing the in-progress check. The model is sequential.
- WebSocket transport. A socket is a ready state, a log of sent messages and its close listeners. The close event runs all listeners at once. Logging is left out.
- Floating point. Measurements and averages are exact `real`s.
- The average focus score of sessions written by `src/api/tasks.ts`. Those sessions store a single `focusScore` and no `focusScores` array. For them `flatMap` (src/api/analytics.ts:446) yields one `undefined` per session and the average is NaN. `NaN < 70` (src/api/analytics.ts:464) is false, so the break reminder is silently dropped. The model's sessions always carry an array of scores, as in `src/models/types.ts`, and cannot produce this.
- SessionMetrics.Mean: does not state that the mean times the count equals the sum; that fact is in `MeanWithinRange`.

## Findings

| source | as written | input that shows it | evidently intended | confidence | as-written member | corrected member |
|---|---|---|---|---|---|---|
| src/api/tasks.ts:79-80 | the close listener deletes `taskId` from `taskClients` unconditionally | src/index.ts:74 registers under the user id; a user connects socket A, then socket B (B replaces A), then A closes: the entry for B is deleted, and later updates are dropped while B is open | delete the entry only while it still names the socket that closed | not executed | Notifier.StaleCloseAsWritten | Notifier.TaskClients.Close |
