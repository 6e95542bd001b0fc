/** The trust-score engine (TrustScoreManager.kt): four factor scorers, their fixed
    weighted blend, the motion-stability penalty, the two security overrides, the
    four-step trust ladder and the action each level calls for.

    The source computes the blend in `Double`. Here it is exact and scaled by 100: the
    weights 0.40, 0.25, 0.20 and 0.15 become 40, 25, 20 and 15, the stability penalty
    (100 - s) * 0.1 becomes 10 * (100 - s) and the failure cap 40.0 becomes 4000, and
    `ScoreIsSourceFormula` shows that this gives the source's rational formula. The
    typing comparison keeps its ratios over `real`. Everything the source reads from the
    platform (root marker files, the SDK level, the developer-mode setting, the clock's
    hour, `System.nanoTime`) is an explicit input. */
module TrustScoring {

  import opened Wrappers
  import opened Numeric
  import opened AttackSimulation

  const HighTrustThreshold := 80
  const MediumTrustThreshold := 50
  const LowTrustThreshold := 30

  /** The weights, in hundredths: 0.40, 0.25, 0.20 and 0.15. */
  const WeightTyping := 40
  const WeightDevice := 25
  const WeightLocation := 20
  const WeightTime := 15

  /** The stability penalty applies only below this stability. */
  const StabilityPenaltyBelow := 80
  /** From this many failed logins on, the score is capped. */
  const LoginFailureLimit := 5
  /** The failure cap 40.0, in hundredths. */
  const FailureCap := 4000
  /** How many latency samples the telemetry list keeps. */
  const MaxCalculationSamples := 100

  datatype TrustLevel = High | Medium | Low | Critical

  datatype SecurityAction = Allow | StepUpAuth | Challenge | Deny

  datatype DeviceIssue = Rooted | OutdatedOs | DevMode

  /** The factor status labels (the source's display strings, without their symbols). */
  datatype Status =
    | BotDetected | TypingMatch | TypingSuspicious | TypingAnomaly | NoBaseline
    | DeviceSecure | DeviceIssues(issues: seq<DeviceIssue>)
    | ImpossibleTravel | LocationUnknown | LocationExpected
    | NormalHours | LateNight | UnusualTime
    | TooManyAttempts | SqlInjection

  /** The factors of an evaluation: the map keys "typing", "device", "location", "time"
      and "security", which are also the display names "Typing", ..., "Security". */
  datatype Factor = Typing | Device | Location | Time | Security

  datatype FactorScore = FactorScore(name: Factor, score: int, confidence: int, status: Status)

  datatype TypingPattern = TypingPattern(avgKeyInterval: int, variance: real, pressureLevels: seq<real>)

  /** A location fix; the engine only tests whether one is present. */
  datatype LocationFix = LocationFix(latitude: real, longitude: real)

  datatype TrustScore = TrustScore(score: int, level: TrustLevel, factors: map<Factor, FactorScore>,
                                   calculationTimeMs: int)

  /** What the engine reads from the platform: whether a root marker file exists, whether
      the SDK level is below Android O, whether developer settings are on, and the hour
      of the day. */
  datatype Environment = Environment(rooted: bool, outdatedOs: bool, developerMode: bool, hour: int)

  /** A baseline the typing comparison can divide by. */
  predicate NonDegenerate(p: TypingPattern)
  {
    p.avgKeyInterval != 0 && p.variance != 0.0
  }

  // ---------------------------------------------------------------- factor scorers

  /** One similarity ratio: 100 when nothing differs, falling linearly to 0 when the
      difference reaches the allowed tolerance. */
  function Similarity(diff: real, allowed: real): (r: real)
    requires allowed != 0.0
    ensures 0.0 <= r <= 100.0
    ensures diff == 0.0 ==> r == 100.0
    ensures 0.0 < allowed <= diff ==> r == 0.0
  {
    (1.0 - ClampReal(diff / allowed, 0.0, 1.0)) * 100.0
  }

  function TypingStatus(score: int): (s: Status)
    ensures s == TypingMatch <==> score >= 50
    ensures s == TypingSuspicious <==> 25 <= score < 50
    ensures s == TypingAnomaly <==> score < 25
  {
    if score >= 50 then TypingMatch
    else if score >= 25 then TypingSuspicious
    else TypingAnomaly
  }

  /** Compares a live typing pattern with the baseline: the average of a mean-interval
      similarity (tolerance 5 x the baseline mean) and a variance similarity (tolerance
      10 x the baseline variance), truncated. */
  function AnalyzeTypingPattern(current: TypingPattern, baseline: TypingPattern): (f: FactorScore)
    requires NonDegenerate(baseline)
    ensures f.name == Typing
    ensures 0 <= f.score <= 100
    ensures f.status == TypingStatus(f.score)
    ensures f.confidence == 90 <==> |current.pressureLevels| > 10
    ensures f.confidence == 60 <==> |current.pressureLevels| <= 10
  {
    var intervalDiff := Abs((current.avgKeyInterval - baseline.avgKeyInterval) as real);
    var maxAllowedDiff := baseline.avgKeyInterval as real * 5.0;
    var intervalSimilarity := Similarity(intervalDiff, maxAllowedDiff);
    var varianceDiff := Abs(current.variance - baseline.variance);
    var maxVarianceDiff := baseline.variance * 10.0;
    var varianceSimilarity := Similarity(varianceDiff, maxVarianceDiff);
    var overallScore := TruncReal((intervalSimilarity + varianceSimilarity) / 2.0);
    var confidence := if |current.pressureLevels| > 10 then 90 else 60;
    FactorScore(Typing, overallScore, confidence, TypingStatus(overallScore))
  }

  /** The typing factor of an evaluation: the bot simulation wins, then the comparison
      with the baseline, and without a pattern or a baseline a neutral full score with
      no confidence. */
  function TypingFactor(botTyping: bool, current: Option<TypingPattern>, baseline: Option<TypingPattern>): (f: FactorScore)
    requires baseline.Some? ==> NonDegenerate(baseline.value)
    ensures 0 <= f.score <= 100
  {
    if botTyping then FactorScore(Typing, 10, 99, BotDetected)
    else if current.Some? && baseline.Some? then AnalyzeTypingPattern(current.value, baseline.value)
    else FactorScore(Typing, 100, 0, NoBaseline)
  }

  /** The issues found on the device, in the order the source checks them. */
  function DeviceIssuesOf(env: Environment): seq<DeviceIssue>
  {
    (if env.rooted then [Rooted] else [])
    + (if env.outdatedOs then [OutdatedOs] else [])
    + (if env.developerMode then [DevMode] else [])
  }

  /** The device-integrity factor: 100 less 50 when rooted, 20 on an outdated OS and 10
      in developer mode. */
  function DeviceIntegrity(env: Environment): (f: FactorScore)
    ensures f.name == Device && f.confidence == 95
    ensures 20 <= f.score <= 100
    ensures f.score == 100 - (if env.rooted then 50 else 0) - (if env.outdatedOs then 20 else 0)
                           - (if env.developerMode then 10 else 0)
    ensures f.status == DeviceSecure <==> !env.rooted && !env.outdatedOs && !env.developerMode
    ensures f.status != DeviceSecure ==> f.status == DeviceIssues(DeviceIssuesOf(env))
  {
    var issues := DeviceIssuesOf(env);
    var penalty := (if env.rooted then 50 else 0) + (if env.outdatedOs then 20 else 0)
                   + (if env.developerMode then 10 else 0);
    FactorScore(Device, Clamp(100 - penalty, 0, 100), 95, if issues == [] then DeviceSecure else DeviceIssues(issues))
  }

  /** The issue list names exactly the problems found, each once. */
  lemma DeviceIssuesListed(env: Environment)
    ensures forall d :: d in DeviceIssuesOf(env) <==>
      (d == Rooted && env.rooted) || (d == OutdatedOs && env.outdatedOs) || (d == DevMode && env.developerMode)
    ensures |DeviceIssuesOf(env)| == (if env.rooted then 1 else 0) + (if env.outdatedOs then 1 else 0)
                                    + (if env.developerMode then 1 else 0)
  {
  }

  /** checkDeviceIntegrity as the source writes it: a running score and a growing issue list. */
  method CheckDeviceIntegrity(env: Environment) returns (f: FactorScore)
    ensures f == DeviceIntegrity(env)
  {
    var score := 100;
    var issues: seq<DeviceIssue> := [];
    if env.rooted {
      score := score - 50;
      issues := issues + [Rooted];
    }
    if env.outdatedOs {
      score := score - 20;
      issues := issues + [OutdatedOs];
    }
    if env.developerMode {
      score := score - 10;
      issues := issues + [DevMode];
    }
    var status := if issues == [] then DeviceSecure else DeviceIssues(issues);
    f := FactorScore(Device, Clamp(score, 0, 100), 95, status);
  }

  /** The location factor: no geofencing, only "known" versus "unknown". */
  function AnalyzeLocation(location: Option<LocationFix>): (f: FactorScore)
    ensures f.name == Location
    ensures location.None? ==> f.score == 70 && f.confidence == 50 && f.status == LocationUnknown
    ensures location.Some? ==> f.score == 85 && f.confidence == 75 && f.status == LocationExpected
  {
    if location.None? then FactorScore(Location, 70, 50, LocationUnknown)
    else FactorScore(Location, 85, 75, LocationExpected)
  }

  /** The location factor of an evaluation: the travel simulation wins over the fix. */
  function LocationFactor(impossibleTravel: bool, location: Option<LocationFix>): (f: FactorScore)
    ensures 5 <= f.score <= 85
  {
    if impossibleTravel then FactorScore(Location, 5, 99, ImpossibleTravel)
    else AnalyzeLocation(location)
  }

  /** The time-of-day factor: 06:00 to 22:59 is normal, 23:00 to 01:59 late, the rest unusual. */
  function AnalyzeTimeContext(hour: int): (f: FactorScore)
    ensures f.name == Time && f.confidence == 90
    ensures f.score == 100 <==> 6 <= hour <= 22
    ensures f.score == 80 <==> hour == 23 || 0 <= hour <= 1
    ensures f.score == 60 <==> !(6 <= hour <= 23 || 0 <= hour <= 1)
    ensures f.status == (if f.score == 100 then NormalHours else if f.score == 80 then LateNight else UnusualTime)
  {
    if 6 <= hour <= 22 then FactorScore(Time, 100, 90, NormalHours)
    else if hour == 23 || 0 <= hour <= 1 then FactorScore(Time, 80, 90, LateNight)
    else FactorScore(Time, 60, 90, UnusualTime)
  }

  // ---------------------------------------------------------------- aggregation

  /** The weighted blend with the stability penalty, in hundredths, in the order the
      source accumulates it. */
  function WeightedScore(typing: int, device: int, location: int, time: int, deviceStability: int): (r: int)
    ensures deviceStability >= StabilityPenaltyBelow ==>
              r == typing * WeightTyping + device * WeightDevice + location * WeightLocation + time * WeightTime
    ensures 0 <= deviceStability < StabilityPenaltyBelow ==>
              typing * WeightTyping + device * WeightDevice + location * WeightLocation + time * WeightTime - 1000 <= r
              <= typing * WeightTyping + device * WeightDevice + location * WeightLocation + time * WeightTime - 210
  {
    typing * WeightTyping + device * WeightDevice
    - (if deviceStability < StabilityPenaltyBelow then (100 - deviceStability) * 10 else 0)
    + location * WeightLocation + time * WeightTime
  }

  /** The two overrides in the source's order: the failure cap, then the injection reset. */
  function ApplyOverrides(weighted: int, loginFailures: int, sqlInjectionDetected: bool): (r: int)
    ensures sqlInjectionDetected ==> r == 0
    ensures !sqlInjectionDetected && loginFailures >= LoginFailureLimit ==> r == Min(weighted, FailureCap)
    ensures !sqlInjectionDetected && loginFailures < LoginFailureLimit ==> r == weighted
  {
    var capped := if loginFailures >= LoginFailureLimit then (if weighted <= FailureCap then weighted else FailureCap)
                  else weighted;
    if sqlInjectionDetected then 0 else capped
  }

  /** The final score of a blend after the overrides: truncated, then clamped to [0, 100]. */
  function FinalScore(weighted: int, loginFailures: int, sqlInjectionDetected: bool): (score: int)
    ensures 0 <= score <= 100
  {
    Clamp(TruncDiv(ApplyOverrides(weighted, loginFailures, sqlInjectionDetected), 100), 0, 100)
  }

  /** The security factor recorded by the overrides; the injection entry replaces the
      failure entry. */
  function SecurityFactor(loginFailures: int, sqlInjectionDetected: bool): (r: Option<FactorScore>)
    ensures r.Some? <==> sqlInjectionDetected || loginFailures >= LoginFailureLimit
    ensures r.Some? ==> r.value.name == Security && r.value.confidence == 100
    ensures sqlInjectionDetected ==> r.value.score == 0 && r.value.status == SqlInjection
    ensures !sqlInjectionDetected && loginFailures >= LoginFailureLimit ==>
              r.value.score == 40 && r.value.status == TooManyAttempts
  {
    if sqlInjectionDetected then Some(FactorScore(Security, 0, 100, SqlInjection))
    else if loginFailures >= LoginFailureLimit then Some(FactorScore(Security, 40, 100, TooManyAttempts))
    else None
  }

  function Factors(typing: FactorScore, device: FactorScore, location: FactorScore, time: FactorScore,
                   security: Option<FactorScore>): map<Factor, FactorScore>
  {
    var base := map[Typing := typing, Device := device, Location := location, Time := time];
    if security.Some? then base[Security := security.value] else base
  }

  /** The trust ladder: HIGH from 80, MEDIUM from 50, LOW from 30, CRITICAL below. */
  function LevelOf(score: int): (level: TrustLevel)
    ensures level == High <==> score >= HighTrustThreshold
    ensures level == Medium <==> MediumTrustThreshold <= score < HighTrustThreshold
    ensures level == Low <==> LowTrustThreshold <= score < MediumTrustThreshold
    ensures level == Critical <==> score < LowTrustThreshold
  {
    if score >= HighTrustThreshold then High
    else if score >= MediumTrustThreshold then Medium
    else if score >= LowTrustThreshold then Low
    else Critical
  }

  /** Everything one evaluation reads: the arguments of calculateTrustScore, the stored
      baseline, the two simulation flags and the platform environment. */
  datatype Signals = Signals(
    currentTyping: Option<TypingPattern>,
    baseline: Option<TypingPattern>,
    location: Option<LocationFix>,
    deviceStability: int,
    loginFailures: int,
    sqlInjectionDetected: bool,
    botTyping: bool,
    impossibleTravel: bool,
    env: Environment)

  /** The typing comparison can be made: a stored baseline is non-degenerate. */
  predicate WellFormed(s: Signals)
  {
    s.baseline.Some? ==> NonDegenerate(s.baseline.value)
  }

  /** One evaluation of calculateTrustScore, as a function of everything it reads. */
  function TrustScoreOf(s: Signals, elapsedMs: int): (ts: TrustScore)
    requires WellFormed(s)
    ensures 0 <= ts.score <= 100
    ensures ts.level == LevelOf(ts.score)
    ensures ts.calculationTimeMs == elapsedMs
  {
    var typing := TypingFactor(s.botTyping, s.currentTyping, s.baseline);
    var device := DeviceIntegrity(s.env);
    var loc := LocationFactor(s.impossibleTravel, s.location);
    var time := AnalyzeTimeContext(s.env.hour);
    var weighted := WeightedScore(typing.score, device.score, loc.score, time.score, s.deviceStability);
    var score := FinalScore(weighted, s.loginFailures, s.sqlInjectionDetected);
    var factors := Factors(typing, device, loc, time, SecurityFactor(s.loginFailures, s.sqlInjectionDetected));
    TrustScore(score, LevelOf(score), factors, elapsedMs)
  }

  /** getSecurityAction: a total map from level to action. */
  function GetSecurityAction(ts: TrustScore): (a: SecurityAction)
    ensures a == Allow <==> ts.level == High
    ensures a == StepUpAuth <==> ts.level == Medium
    ensures a == Challenge <==> ts.level == Low
    ensures a == Deny <==> ts.level == Critical
  {
    match ts.level
    case High => Allow
    case Medium => StepUpAuth
    case Low => Challenge
    case Critical => Deny
  }

  /** `(endTime - startTime) / 1_000_000`: nanoseconds to whole milliseconds. */
  function ElapsedMillis(startNanos: int, endNanos: int): (r: int)
    ensures startNanos <= endNanos ==>
              0 <= r && r * 1_000_000 <= endNanos - startNanos < (r + 1) * 1_000_000
    ensures endNanos < startNanos ==> r <= 0
  {
    TruncDiv(endNanos - startNanos, 1_000_000)
  }

  /** One telemetry sample appended, and the oldest evicted once more than 100 are held. */
  function RecordSample(samples: seq<int>, sample: int): (r: seq<int>)
    ensures |samples| < MaxCalculationSamples ==> r == samples + [sample]
    ensures |samples| >= MaxCalculationSamples ==> r == samples[1..] + [sample]
    ensures |samples| <= MaxCalculationSamples ==> |r| <= MaxCalculationSamples
  {
    var appended := samples + [sample];
    if |appended| > MaxCalculationSamples then appended[1..] else appended
  }

  // ---------------------------------------------------------------- proof helpers

  /** Assembles an evaluation from its already computed parts. */
  lemma TrustScoreOfParts(s: Signals, elapsedMs: int, typing: FactorScore, device: FactorScore,
                          loc: FactorScore, time: FactorScore, weighted: int, factors: map<Factor, FactorScore>)
    requires WellFormed(s)
    requires typing == TypingFactor(s.botTyping, s.currentTyping, s.baseline)
    requires device == DeviceIntegrity(s.env)
    requires loc == LocationFactor(s.impossibleTravel, s.location)
    requires time == AnalyzeTimeContext(s.env.hour)
    requires weighted == WeightedScore(typing.score, device.score, loc.score, time.score, s.deviceStability)
    requires factors == Factors(typing, device, loc, time, SecurityFactor(s.loginFailures, s.sqlInjectionDetected))
    ensures var score := FinalScore(weighted, s.loginFailures, s.sqlInjectionDetected);
      TrustScoreOf(s, elapsedMs) == TrustScore(score, LevelOf(score), factors, elapsedMs)
  {
  }

  lemma UpdateTwice<K, V>(m: map<K, V>, k: K, first: V, second: V)
    ensures m[k := first][k := second] == m[k := second]
  {
  }

  /** The first half of calculateTrustScore: each factor is scored, recorded in the
      factor map and added to the weighted score, the stability penalty after the
      device factor. */
  method BlendFactors(botTyping: bool, currentTyping: Option<TypingPattern>, baseline: Option<TypingPattern>,
                      impossibleTravel: bool, location: Option<LocationFix>, deviceStability: int,
                      env: Environment)
    returns (typingScore: FactorScore, deviceScore: FactorScore, locationScore: FactorScore,
             timeScore: FactorScore, weightedScore: int, factors: map<Factor, FactorScore>)
    requires baseline.Some? ==> NonDegenerate(baseline.value)
    ensures typingScore == TypingFactor(botTyping, currentTyping, baseline)
    ensures deviceScore == DeviceIntegrity(env)
    ensures locationScore == LocationFactor(impossibleTravel, location)
    ensures timeScore == AnalyzeTimeContext(env.hour)
    ensures weightedScore == WeightedScore(typingScore.score, deviceScore.score, locationScore.score,
                                           timeScore.score, deviceStability)
    ensures factors == Factors(typingScore, deviceScore, locationScore, timeScore, None)
  {
    factors := map[];
    weightedScore := 0;

    typingScore := TypingFactor(botTyping, currentTyping, baseline);
    factors := factors[Typing := typingScore];
    weightedScore := weightedScore + typingScore.score * WeightTyping;

    deviceScore := CheckDeviceIntegrity(env);
    factors := factors[Device := deviceScore];
    weightedScore := weightedScore + deviceScore.score * WeightDevice;

    if deviceStability < StabilityPenaltyBelow {
      weightedScore := weightedScore - (100 - deviceStability) * 10;
    }

    locationScore := LocationFactor(impossibleTravel, location);
    factors := factors[Location := locationScore];
    weightedScore := weightedScore + locationScore.score * WeightLocation;

    timeScore := AnalyzeTimeContext(env.hour);
    factors := factors[Time := timeScore];
    weightedScore := weightedScore + timeScore.score * WeightTime;
  }

  /** The override block of calculateTrustScore, applied to the blended score and the
      factor map: first the failure cap, then the injection reset. */
  method ApplySecurityOverrides(weighted: int, factors: map<Factor, FactorScore>, loginFailures: int,
                                sqlInjectionDetected: bool)
    returns (weightedScore: int, newFactors: map<Factor, FactorScore>)
    ensures weightedScore == ApplyOverrides(weighted, loginFailures, sqlInjectionDetected)
    ensures var security := SecurityFactor(loginFailures, sqlInjectionDetected);
      newFactors == if security.Some? then factors[Security := security.value] else factors
  {
    weightedScore, newFactors := weighted, factors;
    if loginFailures >= LoginFailureLimit {
      if weightedScore > FailureCap {
        weightedScore := FailureCap;
      }
      newFactors := newFactors[Security := FactorScore(Security, 40, 100, TooManyAttempts)];
    }
    if sqlInjectionDetected {
      weightedScore := 0;
      UpdateTwice(factors, Security, FactorScore(Security, 40, 100, TooManyAttempts),
                  FactorScore(Security, 0, 100, SqlInjection));
      newFactors := newFactors[Security := FactorScore(Security, 0, 100, SqlInjection)];
    }
  }

  /** The scoring part of calculateTrustScore: the blend, the overrides, the truncation
      and the level. */
  method EvaluateSignals(s: Signals, elapsedMs: int) returns (ts: TrustScore)
    requires WellFormed(s)
    ensures ts == TrustScoreOf(s, elapsedMs)
  {
    var typingScore, deviceScore, locationScore, timeScore, weightedScore, factors :=
      BlendFactors(s.botTyping, s.currentTyping, s.baseline, s.impossibleTravel, s.location, s.deviceStability, s.env);
    ghost var blended := weightedScore;
    weightedScore, factors := ApplySecurityOverrides(weightedScore, factors, s.loginFailures, s.sqlInjectionDetected);
    var score := Clamp(TruncDiv(weightedScore, 100), 0, 100);
    TrustScoreOfParts(s, elapsedMs, typingScore, deviceScore, locationScore, timeScore, blended, factors);
    ts := TrustScore(score, LevelOf(score), factors, elapsedMs);
  }

  // ---------------------------------------------------------------- the manager

  class TrustScoreManager {
    var currentTrustScore: int
    var baselineTypingPattern: Option<TypingPattern>
    var lastCalculationTimeMs: int
    var calculationTimes: seq<int>

    ghost predicate Valid()
      reads this
    {
      && |calculationTimes| <= MaxCalculationSamples
      && (baselineTypingPattern.Some? ==> NonDegenerate(baselineTypingPattern.value))
    }

    constructor ()
      ensures Valid()
      ensures currentTrustScore == 100 && baselineTypingPattern == None
      ensures lastCalculationTimeMs == 0 && calculationTimes == []
    {
      currentTrustScore := 100;
      baselineTypingPattern := None;
      lastCalculationTimeMs := 0;
      calculationTimes := [];
    }

    /** Replaces the baseline; nothing else changes. */
    method SetBaselineTypingPattern(pattern: TypingPattern)
      requires Valid() && NonDegenerate(pattern)
      modifies this
      ensures Valid()
      ensures baselineTypingPattern == Some(pattern)
      ensures currentTrustScore == old(currentTrustScore) && lastCalculationTimeMs == old(lastCalculationTimeMs)
      ensures calculationTimes == old(calculationTimes)
    {
      baselineTypingPattern := Some(pattern);
    }

    /** calculateTrustScore: fills the factor map and accumulates the weighted score step
        by step, applies the overrides, and records the call's latency. */
    method CalculateTrustScore(currentTyping: Option<TypingPattern>, location: Option<LocationFix>,
                               deviceStability: int, loginFailures: int, sqlInjectionDetected: bool,
                               simulator: AttackSimulator, env: Environment,
                               startNanos: int, endNanos: int) returns (ts: TrustScore)
      requires Valid()
      modifies this
      ensures Valid()
      ensures ts == TrustScoreOf(Signals(currentTyping, baselineTypingPattern, location, deviceStability,
                                         loginFailures, sqlInjectionDetected,
                                         simulator.isSuperHumanTypingSimulated,
                                         simulator.isLongDistanceJumpSimulated, env),
                                 ElapsedMillis(startNanos, endNanos))
      ensures baselineTypingPattern == old(baselineTypingPattern)
      ensures currentTrustScore == ts.score && lastCalculationTimeMs == ts.calculationTimeMs
      ensures calculationTimes == RecordSample(old(calculationTimes), lastCalculationTimeMs)
    {
      var elapsedMs := ElapsedMillis(startNanos, endNanos);
      ts := EvaluateSignals(Signals(currentTyping, baselineTypingPattern, location, deviceStability,
                                    loginFailures, sqlInjectionDetected, simulator.isSuperHumanTypingSimulated,
                                    simulator.isLongDistanceJumpSimulated, env), elapsedMs);
      currentTrustScore := ts.score;
      lastCalculationTimeMs := elapsedMs;
      RecordCalculationTime(lastCalculationTimeMs);
    }

    /** The latency bookkeeping of calculateTrustScore: append the sample, evict the
        oldest once more than 100 are held. */
    method RecordCalculationTime(sample: int)
      requires Valid()
      modifies this
      ensures Valid()
      ensures calculationTimes == RecordSample(old(calculationTimes), sample)
      ensures currentTrustScore == old(currentTrustScore) && lastCalculationTimeMs == old(lastCalculationTimeMs)
      ensures baselineTypingPattern == old(baselineTypingPattern)
    {
      calculationTimes := calculationTimes + [sample];
      if |calculationTimes| > MaxCalculationSamples {
        calculationTimes := calculationTimes[1..];
      }
    }
  }
}
