/** The login and session controller (ZeroTrustViewModel.kt): the injection scan, the
    login state machine over the failure counter and the sticky injection flag, the
    score-gated helpers, the demo baseline and the demo reset.

    The coroutine scheduling (the delayed baseline, the five-second monitoring loop, the
    scripted bot typing) is not modelled; the operations it calls are. What one score
    evaluation reads from the platform arrives as a `Platform` value. */
module ViewModel {

  import opened Wrappers
  import opened Numeric
  import opened AttackSimulation
  import opened TrustScoring
  import opened TrustScoreProperties
  import opened Behavior

  const DemoUsername := "user"
  const DemoPassword := "password"

  /** The demo baseline: a mean interval of 200 ms, a variance of 500 and five pressure samples. */
  const DemoBaseline := TypingPattern(200, 500.0, [0.5, 0.6, 0.5, 0.7, 0.6])

  /** The substrings whose presence in the upper-cased input counts as an injection attempt. */
  const SqlInjectionPatterns: seq<string> := ["' OR '1'='1", "\" OR \"1\"=\"1", "; DROP TABLE", "--", "UNION SELECT"]

  const FullBalance := "$25,847.32"
  const MaskedBalance := "$25,8**.** (Masked)"
  const HiddenBalance := "Hidden"

  datatype LoginResult = Success | InvalidCredentials(attempts: int) | StepUpRequired | SqlInjectionDetected

  /** What one score evaluation reads from the platform: the environment and the two
      `System.nanoTime` readings around the calculation. */
  datatype Platform = Platform(env: Environment, startNanos: int, endNanos: int)

  // ---------------------------------------------------------------- injection scan

  /** `Char.uppercase` on ASCII letters. */
  function Upper(c: char): (u: char)
    ensures 'a' <= c <= 'z' ==> u as int == c as int - 32
    ensures !('a' <= c <= 'z') ==> u == c
  {
    if 'a' <= c <= 'z' then (c as int - 32) as char else c
  }

  /** `String.uppercase` on ASCII text. */
  function UpperString(s: string): (u: string)
    ensures |u| == |s|
    ensures forall i :: 0 <= i < |s| ==> u[i] == Upper(s[i])
  {
    seq(|s|, i requires 0 <= i < |s| => Upper(s[i]))
  }

  /** The pattern occurs in `s` starting at position `i`. */
  predicate OccursAt(s: string, pattern: string, i: int)
  {
    0 <= i && i + |pattern| <= |s| && s[i..i + |pattern|] == pattern
  }

  /** `String.contains`: the pattern occurs at some position. */
  predicate Contains(s: string, pattern: string)
  {
    exists i :: 0 <= i <= |s| && OccursAt(s, pattern, i)
  }

  /** checkForSqlInjection: some pattern occurs in the upper-cased input. */
  predicate CheckForSqlInjection(input: string): (r: bool)
    ensures r ==> |input| >= 2
  {
    exists k :: 0 <= k < |SqlInjectionPatterns| && Contains(UpperString(input), SqlInjectionPatterns[k])
  }

  /** Upper-casing twice is upper-casing once. */
  lemma UpperIdempotent(s: string)
    ensures UpperString(UpperString(s)) == UpperString(s)
  {
  }

  /** The scan does not depend on the case of the input. */
  lemma InjectionScanIgnoresCase(s: string)
    ensures CheckForSqlInjection(UpperString(s)) == CheckForSqlInjection(s)
  {
    UpperIdempotent(s);
  }

  lemma UpperConcat(a: string, b: string)
    ensures UpperString(a + b) == UpperString(a) + UpperString(b)
  {
  }

  /** A pattern that occurs in `s` occurs in any text around `s`. */
  lemma ContainsInContext(a: string, s: string, b: string, pattern: string)
    requires Contains(s, pattern)
    ensures Contains(a + s + b, pattern)
  {
    var i :| 0 <= i <= |s| && OccursAt(s, pattern, i);
    assert i + |pattern| <= |s| && s[i..i + |pattern|] == pattern;
    var t := a + s + b;
    var j := |a| + i;
    assert t[j..j + |pattern|] == s[i..i + |pattern|];
    assert OccursAt(t, pattern, j);
  }

  /** Text around a flagged input is flagged too. */
  lemma InjectionScanInContext(a: string, s: string, b: string)
    requires CheckForSqlInjection(s)
    ensures CheckForSqlInjection(a + s + b)
  {
    var k :| 0 <= k < |SqlInjectionPatterns| && Contains(UpperString(s), SqlInjectionPatterns[k]);
    UpperConcat(a, s);
    UpperConcat(a + s, b);
    ContainsInContext(UpperString(a), UpperString(s), UpperString(b), SqlInjectionPatterns[k]);
  }

  /** A pattern whose first character does not occur in the text does not occur in it. */
  lemma AbsentFirstChar(s: string, pattern: string)
    requires |pattern| > 0 && forall i :: 0 <= i < |s| ==> s[i] != pattern[0]
    ensures !Contains(s, pattern)
  {
    forall i | 0 <= i && i + |pattern| <= |s|
      ensures !OccursAt(s, pattern, i)
    {
      assert s[i..i + |pattern|][0] == s[i];
    }
  }

  /** The demo credentials pass the scan. */
  lemma DemoCredentialsPass()
    ensures !CheckForSqlInjection(DemoUsername) && !CheckForSqlInjection(DemoPassword)
  {
    assert UpperString(DemoUsername) == "USER";
    assert UpperString(DemoPassword) == "PASSWORD";
    forall k | 0 <= k < |SqlInjectionPatterns|
      ensures !Contains("USER", SqlInjectionPatterns[k]) && !Contains("PASSWORD", SqlInjectionPatterns[k])
    {
      var pattern := SqlInjectionPatterns[k];
      if k == 4 {
        AbsentFirstChar("PASSWORD", pattern);
      } else {
        AbsentFirstChar("USER", pattern);
        AbsentFirstChar("PASSWORD", pattern);
      }
    }
  }

  /** The classic tautology attack is caught in lower case. */
  lemma TautologyIsCaught()
    ensures CheckForSqlInjection("admin' or '1'='1")
  {
    var u := UpperString("admin' or '1'='1");
    assert u == "ADMIN' OR '1'='1";
    assert u[5..5 + |SqlInjectionPatterns[0]|] == SqlInjectionPatterns[0];
    assert OccursAt(u, SqlInjectionPatterns[0], 5);
  }

  // ---------------------------------------------------------------- argument selection

  /** The typing argument of recalculateTrustScore: the monitor's pattern once it has
      any interval, otherwise none. */
  function SelectedTyping(timings: seq<int>): (t: Option<TypingPattern>)
    ensures t.Some? <==> |timings| > 0
    ensures t.Some? ==> t.value == ConvertToTypingPattern(timings) && t.value.pressureLevels == []
  {
    if CurrentTypingPattern(timings).keystrokeCount > 0 then Some(ConvertToTypingPattern(timings)) else None
  }

  /** Everything recalculateTrustScore feeds one evaluation: no location is ever passed. */
  function SignalsOf(timings: seq<int>, baseline: Option<TypingPattern>, deviceStability: int, loginAttempts: int,
                     sqlInjectionDetected: bool, botTyping: bool, impossibleTravel: bool, env: Environment): (s: Signals)
    ensures s.location == None && s.currentTyping == SelectedTyping(timings)
  {
    Signals(SelectedTyping(timings), baseline, None, deviceStability, loginAttempts, sqlInjectionDetected,
            botTyping, impossibleTravel, env)
  }

  /** The session never reports a location, so the location factor is "unknown" (70,
      confidence 50) unless the travel simulation is on; an empty keystroke window leaves
      the typing factor neutral unless the bot simulation is on. */
  lemma SessionFactors(timings: seq<int>, baseline: Option<TypingPattern>, deviceStability: int, loginAttempts: int,
                       sqlInjectionDetected: bool, botTyping: bool, impossibleTravel: bool, env: Environment,
                       elapsedMs: int)
    requires baseline.Some? ==> NonDegenerate(baseline.value)
    ensures var f := TrustScoreOf(SignalsOf(timings, baseline, deviceStability, loginAttempts, sqlInjectionDetected,
                                            botTyping, impossibleTravel, env), elapsedMs).factors;
      && (!impossibleTravel ==> f[Location] == FactorScore(Location, 70, 50, LocationUnknown))
      && (impossibleTravel ==> f[Location] == FactorScore(Location, 5, 99, ImpossibleTravel))
      && (!botTyping && |timings| == 0 ==> f[Typing] == FactorScore(Typing, 100, 0, NoBaseline))
      && (!botTyping && |timings| > 0 && baseline.Some? ==>
            f[Typing] == AnalyzeTypingPattern(ConvertToTypingPattern(timings), baseline.value)
            && f[Typing].confidence == 60)
  {
    SimulatedAttacks(SignalsOf(timings, baseline, deviceStability, loginAttempts, sqlInjectionDetected,
                               botTyping, impossibleTravel, env), elapsedMs);
    if |timings| > 0 && baseline.Some? {
      MonitorPatternConfidence(timings, baseline.value);
    }
  }

  /** What resetDemo evaluates: an empty keystroke window, no failures, no injection and
      both simulations off. On a clean device during the day that session is HIGH, at 84
      or more whatever the motion state (94 when the device has been still). */
  lemma ResetSessionIsHigh(baseline: Option<TypingPattern>, deviceStability: int, env: Environment, elapsedMs: int)
    requires baseline.Some? ==> NonDegenerate(baseline.value)
    requires 0 <= deviceStability <= MaxStability
    requires !env.rooted && !env.outdatedOs && !env.developerMode && 6 <= env.hour <= 22
    ensures var ts := TrustScoreOf(SignalsOf([], baseline, deviceStability, 0, false, false, false, env), elapsedMs);
      && ts.level == High && ts.score >= 84 && GetSecurityAction(ts) == Allow
      && (deviceStability >= StabilityPenaltyBelow ==> ts.score == 94)
  {
    NeutralSessionIsHigh(SignalsOf([], baseline, deviceStability, 0, false, false, false, env), elapsedMs);
  }

  // ---------------------------------------------------------------- score-gated helpers

  /** The score the helpers read: the last evaluation's, or 100 before the first one. */
  function ScoreOrDefault(trustScore: Option<TrustScore>): (r: int)
    ensures trustScore.None? ==> r == 100
    ensures trustScore.Some? ==> r == trustScore.value.score
  {
    if trustScore.Some? then trustScore.value.score else 100
  }

  /** canTransfer: transfers need at least MEDIUM trust. */
  function CanTransfer(trustScore: Option<TrustScore>): (r: bool)
    ensures r <==> ScoreOrDefault(trustScore) >= MediumTrustThreshold
  {
    ScoreOrDefault(trustScore) >= MediumTrustThreshold
  }

  /** getAccountBalance: shown from 80, masked from 50, hidden below. */
  function GetAccountBalance(trustScore: Option<TrustScore>): (r: string)
    ensures r == FullBalance <==> ScoreOrDefault(trustScore) >= HighTrustThreshold
    ensures r == MaskedBalance <==> MediumTrustThreshold <= ScoreOrDefault(trustScore) < HighTrustThreshold
    ensures r == HiddenBalance <==> ScoreOrDefault(trustScore) < MediumTrustThreshold
  {
    var score := ScoreOrDefault(trustScore);
    if score >= HighTrustThreshold then FullBalance
    else if score >= MediumTrustThreshold then MaskedBalance
    else HiddenBalance
  }

  /** getSecurityAction of the session: the engine's action, ALLOW before any evaluation. */
  function SessionAction(trustScore: Option<TrustScore>): (a: SecurityAction)
    ensures trustScore.None? ==> a == Allow
    ensures trustScore.Some? ==> a == GetSecurityAction(trustScore.value)
  {
    if trustScore.Some? then GetSecurityAction(trustScore.value) else Allow
  }

  /** The three helpers agree on every evaluation the engine can produce: a transfer is
      possible exactly when the action is ALLOW or STEP_UP_AUTH, the balance is hidden
      exactly when transfers are refused, and shown in full exactly when the action is
      ALLOW. Before the first evaluation all three read as a score of 100. */
  lemma GatesAgree(trustScore: Option<TrustScore>)
    requires trustScore.Some? ==> trustScore.value.level == LevelOf(trustScore.value.score)
    ensures CanTransfer(trustScore) <==> SessionAction(trustScore) == Allow || SessionAction(trustScore) == StepUpAuth
    ensures GetAccountBalance(trustScore) == HiddenBalance <==> !CanTransfer(trustScore)
    ensures GetAccountBalance(trustScore) == FullBalance <==> SessionAction(trustScore) == Allow
    ensures trustScore.None? ==> CanTransfer(trustScore) && GetAccountBalance(trustScore) == FullBalance
  {
  }

  // ---------------------------------------------------------------- login decision

  /** The outcome of one login attempt: the result, the new failure counter, the new
      injection flag, and whether the session is evaluated again. */
  datatype LoginStep = LoginStep(result: LoginResult, attempts: int, injectionFlag: bool, recalculates: bool)

  /** Either field trips the injection scan. */
  predicate InjectionAttempt(username: string, password: string)
  {
    CheckForSqlInjection(username) || CheckForSqlInjection(password)
  }

  predicate CorrectCredentials(username: string, password: string)
  {
    username == DemoUsername && password == DemoPassword
  }

  /** validateLogin's decision: the scan is checked before the credentials, and correct
      credentials after five failures ask for step-up instead of succeeding. */
  function DecideLogin(username: string, password: string, attempts: int, injectionFlag: bool): (st: LoginStep)
    ensures st.result == SqlInjectionDetected <==> InjectionAttempt(username, password)
    ensures st.result == Success <==>
      !InjectionAttempt(username, password) && CorrectCredentials(username, password) && attempts < LoginFailureLimit
    ensures st.result == StepUpRequired <==>
      !InjectionAttempt(username, password) && CorrectCredentials(username, password) && attempts >= LoginFailureLimit
    ensures st.result.InvalidCredentials? <==>
      !InjectionAttempt(username, password) && !CorrectCredentials(username, password)
    ensures st.injectionFlag == (injectionFlag || InjectionAttempt(username, password))
    ensures st.recalculates <==> st.result != StepUpRequired
    ensures st.result == Success ==> st.attempts == 0
    ensures st.result.InvalidCredentials? ==> st.attempts == attempts + 1 && st.result.attempts == st.attempts
    ensures st.result == SqlInjectionDetected || st.result == StepUpRequired ==> st.attempts == attempts
  {
    if InjectionAttempt(username, password) then LoginStep(SqlInjectionDetected, attempts, true, true)
    else if CorrectCredentials(username, password) then
      if attempts >= LoginFailureLimit then LoginStep(StepUpRequired, attempts, injectionFlag, false)
      else LoginStep(Success, 0, injectionFlag, true)
    else LoginStep(InvalidCredentials(attempts + 1), attempts + 1, injectionFlag, true)
  }

  /** The results of a run of login attempts, each with the counter and flag the previous
      one left behind. */
  function LoginRun(tries: seq<(string, string)>, attempts: int, injectionFlag: bool): (rs: seq<LoginResult>)
    ensures |rs| == |tries|
    decreases |tries|
  {
    if |tries| == 0 then []
    else
      var st := DecideLogin(tries[0].0, tries[0].1, attempts, injectionFlag);
      [st.result] + LoginRun(tries[1..], st.attempts, st.injectionFlag)
  }

  /** Lockout: once five attempts have failed, no run of attempts ever succeeds again,
      not even with the demo credentials (resetDemo is the only way back). */
  lemma {:induction false} LockoutIsPermanent(tries: seq<(string, string)>, attempts: int, injectionFlag: bool)
    requires attempts >= LoginFailureLimit
    ensures forall i :: 0 <= i < |tries| ==> LoginRun(tries, attempts, injectionFlag)[i] != Success
    decreases |tries|
  {
    if |tries| > 0 {
      var st := DecideLogin(tries[0].0, tries[0].1, attempts, injectionFlag);
      LockoutIsPermanent(tries[1..], st.attempts, st.injectionFlag);
      var rs := LoginRun(tries, attempts, injectionFlag);
      assert rs == [st.result] + LoginRun(tries[1..], st.attempts, st.injectionFlag);
      forall i | 0 <= i < |tries|
        ensures rs[i] != Success
      {
        if i > 0 {
          assert rs[i] == LoginRun(tries[1..], st.attempts, st.injectionFlag)[i - 1];
        }
      }
    }
  }

  /** From a clean counter, `n` wrong passwords are reported as failures 1 to `n`. */
  lemma {:induction false} FailuresAreCounted(tries: seq<(string, string)>, attempts: int, injectionFlag: bool)
    requires forall i :: 0 <= i < |tries| ==>
               !InjectionAttempt(tries[i].0, tries[i].1) && !CorrectCredentials(tries[i].0, tries[i].1)
    ensures forall i :: 0 <= i < |tries| ==> LoginRun(tries, attempts, injectionFlag)[i] == InvalidCredentials(attempts + i + 1)
    decreases |tries|
  {
    if |tries| > 0 {
      var st := DecideLogin(tries[0].0, tries[0].1, attempts, injectionFlag);
      assert st.attempts == attempts + 1;
      FailuresAreCounted(tries[1..], st.attempts, st.injectionFlag);
      var rs := LoginRun(tries, attempts, injectionFlag);
      assert rs == [st.result] + LoginRun(tries[1..], st.attempts, st.injectionFlag);
      forall i | 0 <= i < |tries|
        ensures rs[i] == InvalidCredentials(attempts + i + 1)
      {
        if i > 0 {
          assert rs[i] == LoginRun(tries[1..], st.attempts, st.injectionFlag)[i - 1];
        }
      }
    }
  }

  // ---------------------------------------------------------------- the view model

  class ZeroTrustViewModel {
    const trustScoreManager: TrustScoreManager
    const behavioralMonitor: BehavioralMonitor
    /** The process-wide simulation switches. */
    const simulator: AttackSimulator

    var trustScore: Option<TrustScore>
    var isBaselineEstablished: bool
    var loginAttempts: int
    var isSqlInjectionDetected: bool
    var loginUsername: string
    var loginPassword: string

    ghost predicate Valid()
      reads this, trustScoreManager, behavioralMonitor
    {
      && trustScoreManager.Valid()
      && behavioralMonitor.Valid()
      && (trustScore.Some? ==> trustScore.value.level == LevelOf(trustScore.value.score))
    }

    /** The evaluation recalculateTrustScore asks for in the current state. */
    function SessionSignals(env: Environment): (s: Signals)
      reads this, trustScoreManager, behavioralMonitor, simulator
    {
      SignalsOf(behavioralMonitor.keystrokeTimings, trustScoreManager.baselineTypingPattern,
                behavioralMonitor.deviceStabilityScore, loginAttempts, isSqlInjectionDetected,
                simulator.isSuperHumanTypingSimulated, simulator.isLongDistanceJumpSimulated, env)
    }

    constructor (simulator: AttackSimulator)
      ensures Valid()
      ensures fresh(trustScoreManager) && fresh(behavioralMonitor) && this.simulator == simulator
      ensures trustScore == None && !isBaselineEstablished && loginAttempts == 0 && !isSqlInjectionDetected
      ensures loginUsername == "" && loginPassword == ""
      ensures trustScoreManager.baselineTypingPattern == None && trustScoreManager.calculationTimes == []
      ensures behavioralMonitor.keystrokeTimings == [] && behavioralMonitor.deviceStabilityScore == MaxStability
    {
      trustScoreManager := new TrustScoreManager();
      behavioralMonitor := new BehavioralMonitor();
      this.simulator := simulator;
      trustScore := None;
      isBaselineEstablished := false;
      loginAttempts := 0;
      isSqlInjectionDetected := false;
      loginUsername := "";
      loginPassword := "";
    }

    /** recalculateTrustScore: one evaluation of the current session. */
    method RecalculateTrustScore(p: Platform)
      requires Valid()
      modifies this, trustScoreManager
      ensures Valid()
      ensures trustScore == Some(TrustScoreOf(SessionSignals(p.env), ElapsedMillis(p.startNanos, p.endNanos)))
      ensures trustScoreManager.baselineTypingPattern == old(trustScoreManager.baselineTypingPattern)
      ensures trustScoreManager.calculationTimes
              == RecordSample(old(trustScoreManager.calculationTimes), ElapsedMillis(p.startNanos, p.endNanos))
      ensures isBaselineEstablished == old(isBaselineEstablished) && loginAttempts == old(loginAttempts)
      ensures isSqlInjectionDetected == old(isSqlInjectionDetected)
      ensures loginUsername == old(loginUsername) && loginPassword == old(loginPassword)
    {
      var typingPattern := SelectedTyping(behavioralMonitor.keystrokeTimings);
      var ts := trustScoreManager.CalculateTrustScore(typingPattern, None, behavioralMonitor.deviceStabilityScore,
                                                      loginAttempts, isSqlInjectionDetected, simulator, p.env,
                                                      p.startNanos, p.endNanos);
      trustScore := Some(ts);
    }

    /** establishDemoBaseline: installs the demo baseline and evaluates once. */
    method EstablishDemoBaseline(p: Platform)
      requires Valid()
      modifies this, trustScoreManager
      ensures Valid()
      ensures trustScoreManager.baselineTypingPattern == Some(DemoBaseline) && isBaselineEstablished
      ensures trustScore == Some(TrustScoreOf(SessionSignals(p.env), ElapsedMillis(p.startNanos, p.endNanos)))
      ensures trustScoreManager.calculationTimes
              == RecordSample(old(trustScoreManager.calculationTimes), ElapsedMillis(p.startNanos, p.endNanos))
      ensures loginAttempts == old(loginAttempts) && isSqlInjectionDetected == old(isSqlInjectionDetected)
      ensures loginUsername == old(loginUsername) && loginPassword == old(loginPassword)
    {
      trustScoreManager.SetBaselineTypingPattern(DemoBaseline);
      isBaselineEstablished := true;
      RecalculateTrustScore(p);
    }

    /** validateLogin: decides on the two fields and the counter, stores the new counter
        and flag, and evaluates the session again unless step-up is asked for. */
    method ValidateLogin(p: Platform) returns (r: LoginResult)
      requires Valid()
      modifies this, trustScoreManager
      ensures Valid()
      ensures var st := DecideLogin(loginUsername, loginPassword, old(loginAttempts), old(isSqlInjectionDetected));
        r == st.result && loginAttempts == st.attempts && isSqlInjectionDetected == st.injectionFlag
      ensures loginUsername == old(loginUsername) && loginPassword == old(loginPassword)
      ensures isBaselineEstablished == old(isBaselineEstablished)
      ensures trustScoreManager.baselineTypingPattern == old(trustScoreManager.baselineTypingPattern)
      ensures trustScoreManager.calculationTimes
              == (if r == StepUpRequired then old(trustScoreManager.calculationTimes)
                  else RecordSample(old(trustScoreManager.calculationTimes), ElapsedMillis(p.startNanos, p.endNanos)))
      ensures r == StepUpRequired ==> trustScore == old(trustScore)
      ensures r != StepUpRequired ==>
        trustScore == Some(TrustScoreOf(SessionSignals(p.env), ElapsedMillis(p.startNanos, p.endNanos)))
      ensures r == SqlInjectionDetected ==> trustScore.Some? && trustScore.value.score == 0
                                            && trustScore.value.level == Critical
      ensures r.InvalidCredentials? && r.attempts >= LoginFailureLimit && !isSqlInjectionDetected ==>
        trustScore.Some? && trustScore.value.score <= 40
    {
      var st := DecideLogin(loginUsername, loginPassword, loginAttempts, isSqlInjectionDetected);
      loginAttempts := st.attempts;
      isSqlInjectionDetected := st.injectionFlag;
      r := st.result;
      if st.recalculates {
        RecalculateTrustScore(p);
        if r == SqlInjectionDetected {
          InjectionForcesZero(SessionSignals(p.env), ElapsedMillis(p.startNanos, p.endNanos));
        } else if loginAttempts >= LoginFailureLimit && !isSqlInjectionDetected {
          FailureCapBound(SessionSignals(p.env), ElapsedMillis(p.startNanos, p.endNanos));
        }
      }
    }

    /** The clearing half of resetDemo: the counter, the injection flag, the two fields,
        both simulations and the keystroke window; motion state and baseline are kept. */
    method ClearSession()
      requires Valid()
      modifies this, behavioralMonitor, simulator
      ensures Valid()
      ensures loginAttempts == 0 && !isSqlInjectionDetected && loginUsername == "" && loginPassword == ""
      ensures trustScore == old(trustScore) && isBaselineEstablished == old(isBaselineEstablished)
      ensures !simulator.isSuperHumanTypingSimulated && !simulator.isLongDistanceJumpSimulated
      ensures behavioralMonitor.keystrokeTimings == [] && behavioralMonitor.lastKeyPressTime == 0
      ensures behavioralMonitor.textLength == 0
      ensures behavioralMonitor.deviceStabilityScore == old(behavioralMonitor.deviceStabilityScore)
      ensures behavioralMonitor.shakeCount == old(behavioralMonitor.shakeCount)
      ensures behavioralMonitor.lastShakeTime == old(behavioralMonitor.lastShakeTime)
    {
      loginAttempts := 0;
      isSqlInjectionDetected := false;
      loginUsername := "";
      loginPassword := "";
      simulator.ResetSimulation();
      behavioralMonitor.Reset();
    }

    /** resetDemo: clears the session, then evaluates once. */
    method ResetDemo(p: Platform)
      requires Valid()
      modifies this, trustScoreManager, behavioralMonitor, simulator
      ensures Valid()
      ensures loginAttempts == 0 && !isSqlInjectionDetected && loginUsername == "" && loginPassword == ""
      ensures !simulator.isSuperHumanTypingSimulated && !simulator.isLongDistanceJumpSimulated
      ensures behavioralMonitor.keystrokeTimings == [] && behavioralMonitor.lastKeyPressTime == 0
      ensures behavioralMonitor.textLength == 0
      ensures behavioralMonitor.deviceStabilityScore == old(behavioralMonitor.deviceStabilityScore)
      ensures behavioralMonitor.shakeCount == old(behavioralMonitor.shakeCount)
      ensures behavioralMonitor.lastShakeTime == old(behavioralMonitor.lastShakeTime)
      ensures isBaselineEstablished == old(isBaselineEstablished)
      ensures trustScoreManager.baselineTypingPattern == old(trustScoreManager.baselineTypingPattern)
      ensures trustScoreManager.calculationTimes
              == RecordSample(old(trustScoreManager.calculationTimes), ElapsedMillis(p.startNanos, p.endNanos))
      ensures trustScore == Some(TrustScoreOf(SessionSignals(p.env), ElapsedMillis(p.startNanos, p.endNanos)))
      ensures !p.env.rooted && !p.env.outdatedOs && !p.env.developerMode && 6 <= p.env.hour <= 22 ==>
        trustScore.Some? && trustScore.value.level == High && trustScore.value.score >= 84
    {
      ClearSession();
      RecalculateTrustScore(p);
      if !p.env.rooted && !p.env.outdatedOs && !p.env.developerMode && 6 <= p.env.hour <= 22 {
        assert SessionSignals(p.env) == SignalsOf([], trustScoreManager.baselineTypingPattern,
                                                  behavioralMonitor.deviceStabilityScore, 0, false, false, false, p.env);
        ResetSessionIsHigh(trustScoreManager.baselineTypingPattern, behavioralMonitor.deviceStabilityScore, p.env,
                           ElapsedMillis(p.startNanos, p.endNanos));
      }
    }
  }
}
