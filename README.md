# Zero-trust banking demo: the continuous-authentication core

This project models the continuous-authentication core of an Android banking demo and
proves properties of that model. The core is an engine that turns four behavioural and
contextual signals into a trust score, and the pieces that feed and consume that score.

- A keystroke and motion window records typing intervals and a device-stability counter.
- The trust-score engine blends typing similarity, device integrity, location and time of
  day with the weights 40/25/20/15. It deducts a penalty for an unsteady device and applies
  two hard overrides: a cap at 40 after five failed logins, and zero on an injection
  attempt. It then places the score on a HIGH / MEDIUM / LOW / CRITICAL ladder, and each
  step calls for ALLOW / STEP_UP_AUTH / CHALLENGE / DENY.
- A login controller runs the injection scan, counts failures and keeps a sticky injection
  flag. It also gates transfers and balance display on the score and resets the demo.
- Two process-wide switches simulate a typing bot and an impossible journey.

The modules follow the source files:

| file | module | models |
|---|---|---|
| `wrappers.dfy` | `Wrappers` | `Option`, for Kotlin's nullable values |
| `numeric.dfy` | `Numeric` | `toInt`, `coerceIn`, `average` and Long division over exact numbers |
| `attack_simulator.dfy` | `AttackSimulation` | `AttackSimulator.kt` |
| `trust_score_manager.dfy` | `TrustScoring` | `TrustScoreManager.kt` |
| `trust_score_properties.dfy` | `TrustScoreProperties` | what one evaluation guarantees |
| `behavioral_monitor.dfy` | `Behavior` | `BehavioralMonitor.kt` |
| `zero_trust_view_model.dfy` | `ViewModel` | `ZeroTrustViewModel.kt` |

The form follows the source:

- Objects whose methods update fields are classes, and their methods carry `modifies` clauses:
  - `AttackSimulator`;
  - `TrustScoreManager`;
  - `BehavioralMonitor`;
  - `ZeroTrustViewModel`.
- Expression-only code is functions.
- `calculateTrustScore` fills its factor map and accumulates its weighted score step by
  step, and three methods do the same:
  - `BlendFactors` is proved equal to the four factor scorers, `WeightedScore` and `Factors`;
  - `ApplySecurityOverrides` is proved equal to `ApplyOverrides` and `SecurityFactor`;
  - `EvaluateSignals` puts the two together and is proved equal to `TrustScoreOf`.

  Every property of an evaluation is then a lemma about `TrustScoreOf`.

The blend is exact and scaled by 100: the weights are 40, 25, 20 and 15, the penalty is
`10 * (100 - stability)` and the cap is 4000. `ScoreIsSourceFormula` proves that this
equals the source's rational formula. The typing ratios are kept over `real`.

Platform reads are parameters:

- the root marker files, the SDK level and the developer setting (`Environment`);
- the hour of the day (`Environment`);
- `System.nanoTime` (`Platform`);
- `System.currentTimeMillis` (the `now` of the monitor's methods);
- whether an accelerometer reading exceeds 2.0 (`moving`).

The comment in `resetDemo` expects the score to return to 100. The session never reports
a location, so a neutral session scores 94 (`ResetSessionIsHigh`). That is still HIGH,
so the model keeps the code's behaviour.

## Model

| member | source | states |
|---|---|---|
| Numeric.TruncReal | app/src/main/java/com/zerotrust/bankingdemo/TrustScoreManager.kt:125 | `toInt` truncates toward zero: within one of its argument, on the side of zero |
| Numeric.TruncDiv | app/src/main/java/com/zerotrust/bankingdemo/TrustScoreManager.kt:136 | Long division truncates toward zero, for either sign of the dividend |
| Numeric.Clamp | app/src/main/java/com/zerotrust/bankingdemo/TrustScoreManager.kt:125 | `coerceIn` returns the value when it is in range and the nearer bound otherwise |
| Numeric.ClampReal | app/src/main/java/com/zerotrust/bankingdemo/TrustScoreManager.kt:153-157 | `coerceIn(0.0, 1.0)` on a ratio returns it when it is in range and the nearer bound otherwise |
| Numeric.Abs | app/src/main/java/com/zerotrust/bankingdemo/TrustScoreManager.kt:150-155 | `abs` is non-negative and is the value or its negation |
| Numeric.Mean | app/src/main/java/com/zerotrust/bankingdemo/BehavioralMonitor.kt:129 | `average()` of a non-empty list times its length is its sum |
| Numeric.MeanBounds | app/src/main/java/com/zerotrust/bankingdemo/BehavioralMonitor.kt:129 | the average of values between two bounds lies between them |
| Numeric.MeanAtMost | app/src/main/java/com/zerotrust/bankingdemo/BehavioralMonitor.kt:129 | the average of values no larger than a bound is no larger than it |
| Numeric.TruncDivMonotone | app/src/main/java/com/zerotrust/bankingdemo/TrustScoreManager.kt:125 | truncating division by a positive divisor is monotone |
| AttackSimulation.AttackSimulator.constructor | app/src/main/java/com/zerotrust/bankingdemo/AttackSimulator.kt:13-16 | both simulations start off |
| AttackSimulation.AttackSimulator.SimulateSuperHumanTyping | app/src/main/java/com/zerotrust/bankingdemo/AttackSimulator.kt:19-21 | sets the typing flag only; a second call changes nothing |
| AttackSimulation.AttackSimulator.SimulateLongDistanceJump | app/src/main/java/com/zerotrust/bankingdemo/AttackSimulator.kt:23-25 | sets the travel flag only; a second call changes nothing |
| AttackSimulation.AttackSimulator.ResetSimulation | app/src/main/java/com/zerotrust/bankingdemo/AttackSimulator.kt:27-30 | clears both flags; on cleared flags it changes nothing |
| TrustScoring.Similarity | app/src/main/java/com/zerotrust/bankingdemo/TrustScoreManager.kt:153-157 | a similarity ratio lies in [0, 100]: 100 with no difference, 0 once the difference reaches the tolerance |
| TrustScoring.TypingStatus | app/src/main/java/com/zerotrust/bankingdemo/TrustScoreManager.kt:162-166 | Match from 50, Suspicious from 25, Anomaly below, each an if-and-only-if |
| TrustScoring.AnalyzeTypingPattern | app/src/main/java/com/zerotrust/bankingdemo/TrustScoreManager.kt:149-169 | the typing score lies in [0, 100] and its status is its tier; confidence is 90 exactly when there are more than 10 pressure samples, otherwise 60 |
| TrustScoring.TypingFactor | app/src/main/java/com/zerotrust/bankingdemo/TrustScoreManager.kt:80-86 | the typing factor of an evaluation lies in [0, 100] |
| TrustScoring.DeviceIntegrity | app/src/main/java/com/zerotrust/bankingdemo/TrustScoreManager.kt:173-195 | device score is 100 − 50·rooted − 20·old OS − 10·developer mode, in [20, 100], confidence 95; "Secure" exactly when there is no issue, otherwise the issue list |
| TrustScoring.DeviceIssuesListed | app/src/main/java/com/zerotrust/bankingdemo/TrustScoreManager.kt:175-190 | the issue list names exactly the problems found, each once |
| TrustScoring.CheckDeviceIntegrity | app/src/main/java/com/zerotrust/bankingdemo/TrustScoreManager.kt:173-195 | the running score and growing issue list give `DeviceIntegrity` |
| TrustScoring.AnalyzeLocation | app/src/main/java/com/zerotrust/bankingdemo/TrustScoreManager.kt:197-206 | no fix gives (70, 50, Unknown); any fix gives (85, 75, Expected) |
| TrustScoring.LocationFactor | app/src/main/java/com/zerotrust/bankingdemo/TrustScoreManager.kt:101-105 | the location factor of an evaluation lies in [5, 85] |
| TrustScoring.AnalyzeTimeContext | app/src/main/java/com/zerotrust/bankingdemo/TrustScoreManager.kt:208-224 | 100 exactly for hours 6..22, 80 exactly for 23, 0 and 1, 60 exactly otherwise; confidence 90 and the matching status |
| TrustScoring.WeightedScore | app/src/main/java/com/zerotrust/bankingdemo/TrustScoreManager.kt:88-112 | from stability 80 the blend is exactly 40·typing + 25·device + 20·location + 15·time (in hundredths); below 80, with a non-negative stability, the penalty takes off between 2.1 and 10 points |
| TrustScoring.ApplyOverrides | app/src/main/java/com/zerotrust/bankingdemo/TrustScoreManager.kt:114-123 | an injection gives 0 whatever the failures; otherwise five failures give exactly the smaller of the blend and 40.0, and fewer leave the blend unchanged |
| TrustScoring.SecurityFactor | app/src/main/java/com/zerotrust/bankingdemo/TrustScoreManager.kt:115-123 | a security entry exists exactly when there is an injection or five failures; it is (0, 100, SQL injection) on an injection, else (40, 100, Too many attempts) |
| TrustScoring.FinalScore | app/src/main/java/com/zerotrust/bankingdemo/TrustScoreManager.kt:125 | the final score lies in [0, 100] |
| TrustScoring.LevelOf | app/src/main/java/com/zerotrust/bankingdemo/TrustScoreManager.kt:127-132 | HIGH from 80, MEDIUM from 50, LOW from 30, CRITICAL below, each an if-and-only-if |
| TrustScoring.TrustScoreOf | app/src/main/java/com/zerotrust/bankingdemo/TrustScoreManager.kt:67-144 | an evaluation has a score in [0, 100], the level of that score and the measured latency |
| TrustScoring.GetSecurityAction | app/src/main/java/com/zerotrust/bankingdemo/TrustScoreManager.kt:254-261 | ALLOW, STEP_UP_AUTH, CHALLENGE and DENY exactly for HIGH, MEDIUM, LOW and CRITICAL |
| TrustScoring.ElapsedMillis | app/src/main/java/com/zerotrust/bankingdemo/TrustScoreManager.kt:135-136 | a forward interval gives the whole milliseconds it contains, rounded down; a backward one gives at most 0 |
| TrustScoring.RecordSample | app/src/main/java/com/zerotrust/bankingdemo/TrustScoreManager.kt:139-140 | below 100 samples the new one is appended; at 100 the oldest is evicted too; a list of at most 100 stays so |
| TrustScoring.BlendFactors | app/src/main/java/com/zerotrust/bankingdemo/TrustScoreManager.kt:76-112 | the step-by-step accumulation gives each factor's scorer, the weighted blend with the penalty, and the four-entry factor map |
| TrustScoring.ApplySecurityOverrides | app/src/main/java/com/zerotrust/bankingdemo/TrustScoreManager.kt:114-123 | the override block gives `ApplyOverrides`, and the security entry of the later override replaces the earlier one |
| TrustScoring.EvaluateSignals | app/src/main/java/com/zerotrust/bankingdemo/TrustScoreManager.kt:76-132 | the blend, the overrides, the truncation and the level give `TrustScoreOf` |
| TrustScoring.TrustScoreManager.constructor | app/src/main/java/com/zerotrust/bankingdemo/TrustScoreManager.kt:14-22 | score 100, no baseline, no latency samples |
| TrustScoring.TrustScoreManager.SetBaselineTypingPattern | app/src/main/java/com/zerotrust/bankingdemo/TrustScoreManager.kt:60-62 | stores the baseline and changes nothing else |
| TrustScoring.TrustScoreManager.CalculateTrustScore | app/src/main/java/com/zerotrust/bankingdemo/TrustScoreManager.kt:67-144 | returns `TrustScoreOf` of its arguments, the stored baseline and the two simulation flags; stores its score and latency; records the latency; keeps the baseline |
| TrustScoring.TrustScoreManager.RecordCalculationTime | app/src/main/java/com/zerotrust/bankingdemo/TrustScoreManager.kt:139-140 | the latency list becomes `RecordSample` of the old list and keeps at most 100 entries |
| TrustScoreProperties.FactorKeys | app/src/main/java/com/zerotrust/bankingdemo/TrustScoreManager.kt:87-123 | the map always holds typing, device, location and time, each under its own name; "security" is present exactly when an override fired |
| TrustScoreProperties.SimulatedAttacks | app/src/main/java/com/zerotrust/bankingdemo/TrustScoreManager.kt:80-112 | the bot flag gives typing (10, 99) whatever the patterns; without it a missing pattern or baseline gives (100, 0); the travel flag gives location (5, 99); device and time are their scorers |
| TrustScoreProperties.BlendIsScaledSourceBlend | app/src/main/java/com/zerotrust/bankingdemo/TrustScoreManager.kt:88-112 | the blend in hundredths is 100 times the rational blend with weights 0.40/0.25/0.20/0.15 and penalty (100 − s)·0.1 below 80 |
| TrustScoreProperties.OverridesAreScaledSourceOverrides | app/src/main/java/com/zerotrust/bankingdemo/TrustScoreManager.kt:114-123 | the overrides in hundredths are 100 times the rational overrides with cap 40.0 |
| TrustScoreProperties.ScoreIsSourceFormula | app/src/main/java/com/zerotrust/bankingdemo/TrustScoreManager.kt:87-125 | the score is the clamp to [0, 100] of the truncated rational formula, applied to the recorded factor scores |
| TrustScoreProperties.InjectionForcesZero | app/src/main/java/com/zerotrust/bankingdemo/TrustScoreManager.kt:120-123 | an injection gives score 0, CRITICAL and DENY whatever the failure count; the factors are those of the clean evaluation plus security (0, 100) |
| TrustScoreProperties.FailureCapBound | app/src/main/java/com/zerotrust/bankingdemo/TrustScoreManager.kt:115-118 | from five failures without an injection, the score is the failure-free score capped at 40, so LOW or CRITICAL and CHALLENGE or DENY; security (40, 100) is added |
| TrustScoreProperties.FinalScoreMonotone | app/src/main/java/com/zerotrust/bankingdemo/TrustScoreManager.kt:88-125 | raising any factor score or the stability never lowers the final score |
| TrustScoreProperties.ImpossibleTravelNeverRaises | app/src/main/java/com/zerotrust/bankingdemo/TrustScoreManager.kt:101-107 | switching on the travel simulation never raises the score |
| TrustScoreProperties.RootingNeverRaises | app/src/main/java/com/zerotrust/bankingdemo/TrustScoreManager.kt:177-180 | a rooted device never scores above the same device unrooted |
| TrustScoreProperties.StabilityNeverLowers | app/src/main/java/com/zerotrust/bankingdemo/TrustScoreManager.kt:96-98 | a steadier device never scores lower |
| TrustScoreProperties.NeutralSessionIsHigh | app/src/main/java/com/zerotrust/bankingdemo/TrustScoreManager.kt:80-132 | a clean session at a normal hour, with no typing, location, failures or simulations, scores 94 from stability 80 on and (8400 + 10·s)/100 below; it is HIGH and ALLOW |
| TrustScoreProperties.LevelMonotone | app/src/main/java/com/zerotrust/bankingdemo/TrustScoreManager.kt:127-132 | a higher score is never on a lower step of the ladder |
| TrustScoreProperties.ActionMonotone | app/src/main/java/com/zerotrust/bankingdemo/TrustScoreManager.kt:254-261 | a higher score never calls for a stricter action |
| TrustScoreProperties.ActionOfScore | app/src/main/java/com/zerotrust/bankingdemo/TrustScoreManager.kt:254-261 | each action corresponds exactly to a score band: ALLOW from 80, STEP_UP_AUTH from 50, CHALLENGE from 30, DENY below |
| TrustScoreProperties.IdenticalTypingMatches | app/src/main/java/com/zerotrust/bankingdemo/TrustScoreManager.kt:149-166 | a pattern equal to the baseline in mean and variance scores 100, Match |
| TrustScoreProperties.DistantTypingIsAnomaly | app/src/main/java/com/zerotrust/bankingdemo/TrustScoreManager.kt:150-166 | a pattern off by 5× the mean and 10× the variance of a positive baseline scores 0, Anomaly |
| TrustScoreProperties.HistoryKeepsLatest | app/src/main/java/com/zerotrust/bankingdemo/TrustScoreManager.kt:139-140 | after any run of calculations the latency list is the latest samples, at most 100, oldest first |
| Behavior.AsReals | app/src/main/java/com/zerotrust/bankingdemo/BehavioralMonitor.kt:130 | the converted list has the same length and values |
| Behavior.SquaredDeviations | app/src/main/java/com/zerotrust/bankingdemo/BehavioralMonitor.kt:155 | element i is the squared distance of value i from the mean |
| Behavior.RhythmOf | app/src/main/java/com/zerotrust/bankingdemo/BehavioralMonitor.kt:132-136 | Fast exactly below 150, Normal exactly for 150..299, Slow exactly from 300 |
| Behavior.CalculateVariance | app/src/main/java/com/zerotrust/bankingdemo/BehavioralMonitor.kt:151-157 | no values give variance 0.0 (its sign and its value on equal values are the two lemmas below) |
| Behavior.CurrentTypingPattern | app/src/main/java/com/zerotrust/bankingdemo/BehavioralMonitor.kt:124-145 | no intervals give (0, 0.0, [], No data, 0); otherwise the mean interval is the truncated average, the count is the list size, pressures are empty, the rhythm is the mean's tier and the variance is the population variance |
| Behavior.ConvertToTypingPattern | app/src/main/java/com/zerotrust/bankingdemo/BehavioralMonitor.kt:171-178 | the engine's pattern has the monitor's mean and variance and no pressure samples |
| Behavior.VarianceNonNegative | app/src/main/java/com/zerotrust/bankingdemo/BehavioralMonitor.kt:151-157 | the variance is never negative |
| Behavior.ConstantHasNoVariance | app/src/main/java/com/zerotrust/bankingdemo/BehavioralMonitor.kt:151-157 | equal values have variance 0 |
| Behavior.AverageWithinBounds | app/src/main/java/com/zerotrust/bankingdemo/BehavioralMonitor.kt:129 | the truncated mean of intervals between two bounds lies between them |
| Behavior.AverageAtMost | app/src/main/java/com/zerotrust/bankingdemo/BehavioralMonitor.kt:129 | the truncated mean of intervals none above a bound is at most that bound |
| Behavior.ThreeKeystrokeExample | app/src/main/java/com/zerotrust/bankingdemo/BehavioralMonitor.kt:124-157 | intervals 100, 200, 300 give mean 200, variance 20000/3, Normal, count 3 |
| Behavior.MonitorPatternConfidence | app/src/main/java/com/zerotrust/bankingdemo/BehavioralMonitor.kt:171-178 | a monitor pattern always gets typing confidence 60, having no pressure samples |
| Behavior.StillStep | app/src/main/java/com/zerotrust/bankingdemo/BehavioralMonitor.kt:58-62 | a still step adds one up to 100 and, from [0, 100], stays in [0, 100] and never lowers the score |
| Behavior.ShakeStep | app/src/main/java/com/zerotrust/bankingdemo/BehavioralMonitor.kt:56 | a shake step takes exactly five off, or drops to 0 below five; from a non-negative score it stays in [0, score] |
| Behavior.StillRecovers | app/src/main/java/com/zerotrust/bankingdemo/BehavioralMonitor.kt:58-63 | n still readings give min(score + n, 100) |
| Behavior.ShakesDrain | app/src/main/java/com/zerotrust/bankingdemo/BehavioralMonitor.kt:49-57 | n admitted shakes give max(score − 5n, 0) |
| Behavior.BehavioralMonitor.constructor | app/src/main/java/com/zerotrust/bankingdemo/BehavioralMonitor.kt:21-79 | no shakes, stability 100, no intervals, no last key, empty text |
| Behavior.BehavioralMonitor.OnSensorChanged | app/src/main/java/com/zerotrust/bankingdemo/BehavioralMonitor.kt:49-63 | a shake more than 500 ms after the last admitted one counts, records its time and costs 5 down to 0; a closer one changes nothing; a still reading recovers 1 up to 100; typing state is untouched and stability stays in [0, 100] |
| Behavior.BehavioralMonitor.OnTextChanged | app/src/main/java/com/zerotrust/bankingdemo/BehavioralMonitor.kt:84-115 | the text length is always updated; only growth after an earlier key appends, and only intervals up to 1500 ms; growth always records the key time; a pattern is returned exactly when growth after an earlier key leaves at least 3 intervals, and it is the current pattern |
| Behavior.BehavioralMonitor.Reset | app/src/main/java/com/zerotrust/bankingdemo/BehavioralMonitor.kt:162-166 | clears the intervals, last key and text length; keeps stability, last shake and shake count |
| Behavior.ReportedPatternBounds | app/src/main/java/com/zerotrust/bankingdemo/BehavioralMonitor.kt:95-107 | a reported pattern counts at least 3 intervals and has a mean of at most 1500 ms |
| ViewModel.Upper | app/src/main/java/com/zerotrust/bankingdemo/ZeroTrustViewModel.kt:182 | lower-case ASCII letters move to upper case; everything else is kept |
| ViewModel.UpperString | app/src/main/java/com/zerotrust/bankingdemo/ZeroTrustViewModel.kt:182 | the upper-cased text has the same length, character by character |
| ViewModel.CheckForSqlInjection | app/src/main/java/com/zerotrust/bankingdemo/ZeroTrustViewModel.kt:174-183 | a flagged input has at least two characters, the shortest pattern being `--` (case, context and the concrete cases are the lemmas below) |
| ViewModel.UpperIdempotent | app/src/main/java/com/zerotrust/bankingdemo/ZeroTrustViewModel.kt:182 | upper-casing twice is upper-casing once |
| ViewModel.InjectionScanIgnoresCase | app/src/main/java/com/zerotrust/bankingdemo/ZeroTrustViewModel.kt:174-183 | the scan gives the same answer on the upper-cased input |
| ViewModel.InjectionScanInContext | app/src/main/java/com/zerotrust/bankingdemo/ZeroTrustViewModel.kt:174-183 | text around a flagged input is flagged too |
| ViewModel.DemoCredentialsPass | app/src/main/java/com/zerotrust/bankingdemo/ZeroTrustViewModel.kt:174-183 | "user" and "password" pass the scan |
| ViewModel.TautologyIsCaught | app/src/main/java/com/zerotrust/bankingdemo/ZeroTrustViewModel.kt:174-183 | the lower-case tautology `admin' or '1'='1` is flagged |
| ViewModel.SelectedTyping | app/src/main/java/com/zerotrust/bankingdemo/ZeroTrustViewModel.kt:63-65 | a typing pattern is passed exactly when an interval is held; it is the monitor's converted pattern, without pressure samples |
| ViewModel.SignalsOf | app/src/main/java/com/zerotrust/bankingdemo/ZeroTrustViewModel.kt:62-72 | the session never passes a location, and passes the selected typing pattern |
| ViewModel.SessionFactors | app/src/main/java/com/zerotrust/bankingdemo/ZeroTrustViewModel.kt:62-72 | the session's location factor is (70, 50, Unknown) unless the travel flag is set; with no intervals its typing is neutral; otherwise the comparison with the baseline, at confidence 60 |
| ViewModel.ResetSessionIsHigh | app/src/main/java/com/zerotrust/bankingdemo/ZeroTrustViewModel.kt:185-201 | the session a reset evaluates, on a clean device at a normal hour, is HIGH and ALLOW at 84 or more, and 94 on a steady device |
| ViewModel.ScoreOrDefault | app/src/main/java/com/zerotrust/bankingdemo/ZeroTrustViewModel.kt:91 | `trustScore?.score ?: 100`: the stored score, or 100 when there is none |
| ViewModel.CanTransfer | app/src/main/java/com/zerotrust/bankingdemo/ZeroTrustViewModel.kt:99-102 | a transfer is possible exactly from score 50, a missing score counting as 100 |
| ViewModel.GetAccountBalance | app/src/main/java/com/zerotrust/bankingdemo/ZeroTrustViewModel.kt:90-97 | full balance exactly from 80, masked exactly for 50..79, hidden exactly below 50 |
| ViewModel.SessionAction | app/src/main/java/com/zerotrust/bankingdemo/ZeroTrustViewModel.kt:104-107 | ALLOW without a score, the engine's action otherwise |
| ViewModel.GatesAgree | app/src/main/java/com/zerotrust/bankingdemo/ZeroTrustViewModel.kt:90-107 | a transfer is possible exactly under ALLOW or STEP_UP_AUTH; the balance is hidden exactly when transfers are refused, and full exactly under ALLOW |
| ViewModel.DecideLogin | app/src/main/java/com/zerotrust/bankingdemo/ZeroTrustViewModel.kt:109-134 | injection first, exactly when a field trips the scan; with correct credentials, step-up from 5 failures and success below them; wrong credentials fail; the flag is only ever set; success resets the counter, failure adds one and reports it, the other two keep it; only step-up skips the evaluation |
| ViewModel.LoginRun | app/src/main/java/com/zerotrust/bankingdemo/ZeroTrustViewModel.kt:109-134 | a run of attempts reports one result per attempt |
| ViewModel.LockoutIsPermanent | app/src/main/java/com/zerotrust/bankingdemo/ZeroTrustViewModel.kt:122-130 | after five failures, no run of attempts succeeds again |
| ViewModel.FailuresAreCounted | app/src/main/java/com/zerotrust/bankingdemo/ZeroTrustViewModel.kt:129-132 | n wrong, clean attempts report the failure counts one after another |
| ViewModel.ZeroTrustViewModel.constructor | app/src/main/java/com/zerotrust/bankingdemo/ZeroTrustViewModel.kt:15-35 | new engine and monitor, no score, no baseline, no failures, no injection, empty fields |
| ViewModel.ZeroTrustViewModel.RecalculateTrustScore | app/src/main/java/com/zerotrust/bankingdemo/ZeroTrustViewModel.kt:62-75 | the stored score is the engine's evaluation of the selected typing, no location, the monitor's stability, the failure count and the injection flag; nothing else of the session changes |
| ViewModel.ZeroTrustViewModel.EstablishDemoBaseline | app/src/main/java/com/zerotrust/bankingdemo/ZeroTrustViewModel.kt:48-60 | installs the baseline (200 ms, 500, five pressures), marks it established and evaluates once, recording one latency sample |
| ViewModel.ZeroTrustViewModel.ValidateLogin | app/src/main/java/com/zerotrust/bankingdemo/ZeroTrustViewModel.kt:109-134 | counter, flag and result follow `DecideLogin`; step-up keeps the score and latency list, and any other result re-evaluates and records one latency sample; the baseline is kept; an injection leaves score 0 CRITICAL; from five failures without injection the score is at most 40 |
| ViewModel.ZeroTrustViewModel.ClearSession | app/src/main/java/com/zerotrust/bankingdemo/ZeroTrustViewModel.kt:187-198 | clears counter, flag, fields, both simulations and the keystroke window; keeps motion state, baseline and score |
| ViewModel.ZeroTrustViewModel.ResetDemo | app/src/main/java/com/zerotrust/bankingdemo/ZeroTrustViewModel.kt:185-202 | the session is cleared and then evaluated once, recording one latency sample and keeping the baseline; on a clean device at a normal hour the result is HIGH with a score of at least 84 |

## Left out

- UI screens, navigation, theme, `MainActivity` and the launcher-icon script: they only display or package the score.
- Coroutine scheduling: the two-second delay before the demo baseline, the five-second monitoring loop, and the scripted keystrokes of `performBotTypingSimulation`. The operations they call are modelled.
- `MutableStateFlow` and Compose state are plain fields, with no observers or thread safety. `AttackSimulator` is a process-wide object in the source; here it is one object shared through the view model.
- Sensor registration, `SensorEvent` decoding and the `sqrt` magnitude: the `moving` input of `OnSensorChanged` stands for "acceleration minus gravity exceeds 2.0".
- Environment reads are parameters: root marker files, the SDK level, the developer setting, the calendar hour, `System.nanoTime` and `System.currentTimeMillis`.
- Binary floating point: the blend, the typing ratios and the variance are exact rationals. `toInt` of a blended value that IEEE arithmetic puts just below a whole number can come out one lower in the source.
- `averageCalculationTimeMs`, `getPerformanceStats` and the view model's `performanceStats`: they are telemetry derived from the latency list, which is modelled.
- TrustScoring.AnalyzeTypingPattern: it requires a baseline with a non-zero mean and variance. The source's division by zero (infinite or NaN ratios) is not modelled, and the view model only ever installs the demo baseline.
- ViewModel.UpperString: upper-cases ASCII letters only, not the full Unicode case mapping of `String.uppercase`.
- ViewModel.ZeroTrustViewModel.ValidateLogin: the counter is an unbounded integer, so Kotlin `Int` wrap-around after 2^31 failures is not modelled. The same holds for `shakeCount` in Behavior.BehavioralMonitor.OnSensorChanged.
- Status strings, factor names and rhythm names are enumerations without their display symbols. `TextFieldValue` is its text, and Float pressure samples are reals.
- Behavior.ConstantHasNoVariance: only one direction is proved, that equal values have zero variance; the converse is not stated.
