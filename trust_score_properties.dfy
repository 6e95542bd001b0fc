/** What one evaluation of the trust-score engine guarantees: the factor map's shape,
    the two security overrides, the score as the source's weighted formula, its
    monotonicity in each factor, the trust ladder and the telemetry window. */
module TrustScoreProperties {

  import opened Wrappers
  import opened Numeric
  import opened TrustScoring

  // ---------------------------------------------------------------- reference definitions

  /** The source's blend over rationals: the weights 0.40, 0.25, 0.20 and 0.15, with
      the penalty (100 - stability) * 0.1 deducted after the device factor. */
  function SourceBlend(typing: int, device: int, location: int, time: int, deviceStability: int): real
  {
    var afterDevice := typing as real * 0.40 + device as real * 0.25;
    var afterPenalty := if deviceStability < 80 then afterDevice - (100 - deviceStability) as real * 0.1
                        else afterDevice;
    afterPenalty + location as real * 0.20 + time as real * 0.15
  }

  /** The source's overrides over rationals: `coerceAtMost(40.0)` from five failures on,
      then zero on an injection. */
  function SourceOverrides(weighted: real, loginFailures: int, sqlInjectionDetected: bool): real
  {
    var capped := if loginFailures >= 5 then (if weighted <= 40.0 then weighted else 40.0) else weighted;
    if sqlInjectionDetected then 0.0 else capped
  }

  /** The order of the ladder, from CRITICAL up. */
  function Rank(level: TrustLevel): nat
  {
    match level
    case Critical => 0
    case Low => 1
    case Medium => 2
    case High => 3
  }

  /** How much an action asks of the user, from ALLOW up. */
  function Strictness(action: SecurityAction): nat
  {
    match action
    case Allow => 0
    case StepUpAuth => 1
    case Challenge => 2
    case Deny => 3
  }

  /** The telemetry list after recording `samples` in order, starting from an empty list. */
  function History(samples: seq<int>): seq<int>
  {
    if |samples| == 0 then [] else RecordSample(History(samples[..|samples| - 1]), samples[|samples| - 1])
  }

  // ---------------------------------------------------------------- the factor map

  /** Every evaluation records the four factors under their own names; the security
      factor is present exactly when an override fired. */
  lemma FactorKeys(s: Signals, elapsedMs: int)
    requires WellFormed(s)
    ensures var ts := TrustScoreOf(s, elapsedMs);
      && Typing in ts.factors && Device in ts.factors && Location in ts.factors && Time in ts.factors
      && (Security in ts.factors <==> s.sqlInjectionDetected || s.loginFailures >= LoginFailureLimit)
      && (forall k :: k in ts.factors ==> ts.factors[k].name == k)
  {
  }

  /** The simulations replace their factor outright; without a pattern or a baseline
      the typing factor is neutral. */
  lemma SimulatedAttacks(s: Signals, elapsedMs: int)
    requires WellFormed(s)
    ensures var f := TrustScoreOf(s, elapsedMs).factors;
      && (s.botTyping ==> f[Typing] == FactorScore(Typing, 10, 99, BotDetected))
      && (!s.botTyping && (s.currentTyping.None? || s.baseline.None?) ==>
            f[Typing] == FactorScore(Typing, 100, 0, NoBaseline))
      && (!s.botTyping && s.currentTyping.Some? && s.baseline.Some? ==>
            f[Typing] == AnalyzeTypingPattern(s.currentTyping.value, s.baseline.value))
      && (s.impossibleTravel ==> f[Location] == FactorScore(Location, 5, 99, ImpossibleTravel))
      && (!s.impossibleTravel ==> f[Location] == AnalyzeLocation(s.location))
      && f[Device] == DeviceIntegrity(s.env)
      && f[Time] == AnalyzeTimeContext(s.env.hour)
  {
  }

  // ---------------------------------------------------------------- the score

  /** The blend in hundredths is the source's rational blend, scaled. */
  lemma BlendIsScaledSourceBlend(typing: int, device: int, location: int, time: int, deviceStability: int)
    ensures WeightedScore(typing, device, location, time, deviceStability) as real / 100.0
            == SourceBlend(typing, device, location, time, deviceStability)
  {
  }

  /** The overrides in hundredths are the source's overrides, scaled. */
  lemma OverridesAreScaledSourceOverrides(weighted: int, loginFailures: int, sqlInjectionDetected: bool)
    ensures ApplyOverrides(weighted, loginFailures, sqlInjectionDetected) as real / 100.0
            == SourceOverrides(weighted as real / 100.0, loginFailures, sqlInjectionDetected)
  {
  }

  /** The score is the source's formula: the rational blend of the recorded factor scores,
      overridden, truncated toward zero and clamped to [0, 100]. */
  lemma ScoreIsSourceFormula(s: Signals, elapsedMs: int)
    requires WellFormed(s)
    ensures var ts := TrustScoreOf(s, elapsedMs);
      ts.score == Clamp(TruncReal(SourceOverrides(
                          SourceBlend(ts.factors[Typing].score, ts.factors[Device].score,
                                      ts.factors[Location].score, ts.factors[Time].score, s.deviceStability),
                          s.loginFailures, s.sqlInjectionDetected)), 0, 100)
  {
    var ts := TrustScoreOf(s, elapsedMs);
    var typing := TypingFactor(s.botTyping, s.currentTyping, s.baseline);
    var device := DeviceIntegrity(s.env);
    var loc := LocationFactor(s.impossibleTravel, s.location);
    var time := AnalyzeTimeContext(s.env.hour);
    assert ts.factors[Typing] == typing && ts.factors[Device] == device;
    assert ts.factors[Location] == loc && ts.factors[Time] == time;
    var w := WeightedScore(typing.score, device.score, loc.score, time.score, s.deviceStability);
    assert ts.score == FinalScore(w, s.loginFailures, s.sqlInjectionDetected);
    BlendIsScaledSourceBlend(typing.score, device.score, loc.score, time.score, s.deviceStability);
    OverridesAreScaledSourceOverrides(w, s.loginFailures, s.sqlInjectionDetected);
    TruncOfHundredth(ApplyOverrides(w, s.loginFailures, s.sqlInjectionDetected));
  }

  /** A detected injection forces the score to zero, CRITICAL and DENY, and adds the
      injection entry without touching the other factors. */
  lemma InjectionForcesZero(s: Signals, elapsedMs: int)
    requires WellFormed(s) && s.sqlInjectionDetected
    ensures var ts := TrustScoreOf(s, elapsedMs);
      && ts.score == 0 && ts.level == Critical && GetSecurityAction(ts) == Deny
      && ts.factors == TrustScoreOf(s.(sqlInjectionDetected := false, loginFailures := 0), elapsedMs).factors
                         [Security := FactorScore(Security, 0, 100, SqlInjection)]
  {
  }

  /** From five failed logins on (and without an injection) the score is the score without
      failures capped at 40, so at best LOW; the failure entry is added. */
  lemma FailureCapBound(s: Signals, elapsedMs: int)
    requires WellFormed(s) && !s.sqlInjectionDetected && s.loginFailures >= LoginFailureLimit
    ensures var ts := TrustScoreOf(s, elapsedMs);
      var uncapped := TrustScoreOf(s.(loginFailures := 0), elapsedMs);
      && ts.score == Min(uncapped.score, 40)
      && (ts.level == Low || ts.level == Critical)
      && (GetSecurityAction(ts) == Challenge || GetSecurityAction(ts) == Deny)
      && ts.factors == uncapped.factors[Security := FactorScore(Security, 40, 100, TooManyAttempts)]
  {
    var ts := TrustScoreOf(s, elapsedMs);
    var typing := TypingFactor(s.botTyping, s.currentTyping, s.baseline);
    var w := WeightedScore(typing.score, DeviceIntegrity(s.env).score,
                           LocationFactor(s.impossibleTravel, s.location).score,
                           AnalyzeTimeContext(s.env.hour).score, s.deviceStability);
    if w <= FailureCap {
      TruncDivMonotone(w, FailureCap, 100);
    } else {
      TruncDivMonotone(FailureCap, w, 100);
    }
  }

  /** Raising any factor score or the stability never lowers the final score. */
  lemma {:induction false} FinalScoreMonotone(t1: int, d1: int, l1: int, h1: int, st1: int,
                                             t2: int, d2: int, l2: int, h2: int, st2: int,
                                             loginFailures: int, sqlInjectionDetected: bool)
    requires t1 <= t2 && d1 <= d2 && l1 <= l2 && h1 <= h2 && st1 <= st2
    ensures FinalScore(WeightedScore(t1, d1, l1, h1, st1), loginFailures, sqlInjectionDetected)
            <= FinalScore(WeightedScore(t2, d2, l2, h2, st2), loginFailures, sqlInjectionDetected)
  {
    var w1, w2 := WeightedScore(t1, d1, l1, h1, st1), WeightedScore(t2, d2, l2, h2, st2);
    assert w1 <= w2;
    var o1, o2 := ApplyOverrides(w1, loginFailures, sqlInjectionDetected),
                  ApplyOverrides(w2, loginFailures, sqlInjectionDetected);
    assert o1 <= o2;
    TruncDivMonotone(o1, o2, 100);
  }

  /** A simulated impossible journey never raises the score. */
  lemma ImpossibleTravelNeverRaises(s: Signals, elapsedMs: int)
    requires WellFormed(s)
    ensures TrustScoreOf(s.(impossibleTravel := true), elapsedMs).score <= TrustScoreOf(s, elapsedMs).score
  {
    var typing := TypingFactor(s.botTyping, s.currentTyping, s.baseline).score;
    var device := DeviceIntegrity(s.env).score;
    var time := AnalyzeTimeContext(s.env.hour).score;
    FinalScoreMonotone(typing, device, 5, time, s.deviceStability,
                       typing, device, LocationFactor(s.impossibleTravel, s.location).score, time, s.deviceStability,
                       s.loginFailures, s.sqlInjectionDetected);
  }

  /** A rooted device never scores higher than the same device unrooted. */
  lemma RootingNeverRaises(s: Signals, elapsedMs: int)
    requires WellFormed(s)
    ensures TrustScoreOf(s.(env := s.env.(rooted := true)), elapsedMs).score
            <= TrustScoreOf(s.(env := s.env.(rooted := false)), elapsedMs).score
  {
    var typing := TypingFactor(s.botTyping, s.currentTyping, s.baseline).score;
    var loc := LocationFactor(s.impossibleTravel, s.location).score;
    var time := AnalyzeTimeContext(s.env.hour).score;
    FinalScoreMonotone(typing, DeviceIntegrity(s.env.(rooted := true)).score, loc, time, s.deviceStability,
                       typing, DeviceIntegrity(s.env.(rooted := false)).score, loc, time, s.deviceStability,
                       s.loginFailures, s.sqlInjectionDetected);
  }

  /** A steadier device never scores lower. */
  lemma StabilityNeverLowers(s: Signals, elapsedMs: int, steadier: int)
    requires WellFormed(s) && s.deviceStability <= steadier
    ensures TrustScoreOf(s, elapsedMs).score <= TrustScoreOf(s.(deviceStability := steadier), elapsedMs).score
  {
    var typing := TypingFactor(s.botTyping, s.currentTyping, s.baseline).score;
    var device := DeviceIntegrity(s.env).score;
    var loc := LocationFactor(s.impossibleTravel, s.location).score;
    var time := AnalyzeTimeContext(s.env.hour).score;
    FinalScoreMonotone(typing, device, loc, time, s.deviceStability,
                       typing, device, loc, time, steadier,
                       s.loginFailures, s.sqlInjectionDetected);
  }

  /** A clean, steady session at a normal hour without typing data is HIGH and allowed:
      94 from stability 80 on, and no lower than 84 below it. */
  lemma NeutralSessionIsHigh(s: Signals, elapsedMs: int)
    requires WellFormed(s)
    requires !s.botTyping && !s.impossibleTravel && !s.sqlInjectionDetected && s.loginFailures < LoginFailureLimit
    requires s.currentTyping.None? && s.location.None?
    requires !s.env.rooted && !s.env.outdatedOs && !s.env.developerMode && 6 <= s.env.hour <= 22
    requires 0 <= s.deviceStability <= 100
    ensures var ts := TrustScoreOf(s, elapsedMs);
      && (s.deviceStability >= StabilityPenaltyBelow ==> ts.score == 94)
      && (s.deviceStability < StabilityPenaltyBelow ==> ts.score == (8400 + 10 * s.deviceStability) / 100)
      && ts.level == High && GetSecurityAction(ts) == Allow
  {
  }

  // ---------------------------------------------------------------- the ladder

  /** A higher score never sits on a lower step of the ladder. */
  lemma LevelMonotone(a: int, b: int)
    requires a <= b
    ensures Rank(LevelOf(a)) <= Rank(LevelOf(b))
  {
  }

  /** A higher score never calls for a stricter action. */
  lemma ActionMonotone(ts1: TrustScore, ts2: TrustScore)
    requires ts1.level == LevelOf(ts1.score) && ts2.level == LevelOf(ts2.score)
    requires ts1.score <= ts2.score
    ensures Strictness(GetSecurityAction(ts2)) <= Strictness(GetSecurityAction(ts1))
  {
    LevelMonotone(ts1.score, ts2.score);
  }

  /** The action of an evaluation, read off its score. */
  lemma ActionOfScore(s: Signals, elapsedMs: int)
    requires WellFormed(s)
    ensures var ts := TrustScoreOf(s, elapsedMs);
      && (GetSecurityAction(ts) == Allow <==> ts.score >= HighTrustThreshold)
      && (GetSecurityAction(ts) == StepUpAuth <==> MediumTrustThreshold <= ts.score < HighTrustThreshold)
      && (GetSecurityAction(ts) == Challenge <==> LowTrustThreshold <= ts.score < MediumTrustThreshold)
      && (GetSecurityAction(ts) == Deny <==> ts.score < LowTrustThreshold)
  {
  }

  // ---------------------------------------------------------------- typing comparison

  /** A pattern identical to the baseline in mean and variance matches fully. */
  lemma IdenticalTypingMatches(current: TypingPattern, baseline: TypingPattern)
    requires NonDegenerate(baseline)
    requires current.avgKeyInterval == baseline.avgKeyInterval && current.variance == baseline.variance
    ensures AnalyzeTypingPattern(current, baseline).score == 100
    ensures AnalyzeTypingPattern(current, baseline).status == TypingMatch
  {
  }

  /** A pattern off by at least the tolerances (5 x the mean, 10 x the variance) of a
      positive baseline scores zero and is an anomaly. */
  lemma DistantTypingIsAnomaly(current: TypingPattern, baseline: TypingPattern)
    requires baseline.avgKeyInterval > 0 && baseline.variance > 0.0
    requires Abs((current.avgKeyInterval - baseline.avgKeyInterval) as real) >= baseline.avgKeyInterval as real * 5.0
    requires Abs(current.variance - baseline.variance) >= baseline.variance * 10.0
    ensures AnalyzeTypingPattern(current, baseline).score == 0
    ensures AnalyzeTypingPattern(current, baseline).status == TypingAnomaly
  {
  }

  // ---------------------------------------------------------------- telemetry

  /** Dropping the oldest of the last `w` samples before the newest and appending the
      newest gives the last `w` samples. */
  lemma SlideWindow(samples: seq<int>, w: nat)
    requires 0 < w < |samples|
    ensures var n := |samples|;
      samples[..n - 1][n - 1 - w..][1..] + [samples[n - 1]] == samples[n - w..]
  {
  }

  /** The telemetry list holds the latest samples, at most 100 of them, oldest first. */
  lemma {:induction false} HistoryKeepsLatest(samples: seq<int>)
    ensures History(samples) == samples[|samples| - Min(|samples|, MaxCalculationSamples)..]
  {
    var n := |samples|;
    if n > 0 {
      var prev := samples[..n - 1];
      HistoryKeepsLatest(prev);
      if n - 1 < MaxCalculationSamples {
        assert History(prev) == prev;
        assert samples == prev + [samples[n - 1]];
      } else {
        SlideWindow(samples, MaxCalculationSamples);
      }
    }
  }
}
