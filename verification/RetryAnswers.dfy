/** What a call of the retry control is answered, in terms of the retries of the run so far, for every
    policy; and what the random waits are, draw by draw. */
module RetryAnswers {
  import opened Words
  import opened RetryControl

  // ----- The timed policies -----

  // The answer, whatever it is, of a call made when the clock can be compared with the retries.
  ghost predicate AnswersInTime(retries: seq<Retried>, maxRetryTime: nat, reading: int, outcome: Outcome)
    requires retries != []
  {
    && (outcome == Answered(StopRetrying) <==> PastLimit(retries, maxRetryTime, reading))
    && (outcome == Answered(RetryLater) <==>
          !PastLimit(retries, maxRetryTime, reading) && StillWaiting(retries, reading))
    && (outcome == Answered(RetryNow) <==>
          !PastLimit(retries, maxRetryTime, reading) && !StillWaiting(retries, reading))
  }

  // Over every run of a timed policy. Before the first retry a call retries, unless it cannot read the
  // clock: then it fails. So does every call while the count has come round to zero. Any other call
  // fails exactly when it has nothing to compare; it is told to stop exactly when the time allowed has
  // passed since the first retry, to wait exactly when there is time left but the wait recorded with
  // the newest retry is not over, and to retry exactly when it is.
  lemma TimedAnswers(rule: WaitRule, s: RetryState, calls: seq<Call>, r: Readings)
    requires IsReset(s) && Timed(s.policy)
    ensures var retries := Retries(rule, s, calls);
            var outcome := ShouldRetry(rule, After(rule, s, calls), r).1;
            && (retries == [] && r.first == INDEFINITE_TIME ==> outcome == Failed)
            && (retries == [] && r.first != INDEFINITE_TIME ==> outcome == Answered(RetryNow))
            && (Wrapped(|retries|) ==> outcome == Answered(RetryNow))
            && (retries != [] && !Wrapped(|retries|) ==>
                  && (outcome == Failed <==> !Comparable(retries, r.evaluate))
                  && (Comparable(retries, r.evaluate) ==> AnswersInTime(retries, s.maxRetryTime, r.evaluate, outcome)))
  {
    hide Retries, After;
    FieldsFollowRetries(rule, s, calls);
  }

  // The second call of a default exponential control, made at once, is told to come back later, and a
  // second after the first it is told to retry.
  lemma SecondCallWaits(t: nat)
    ensures var after := Step(CalculateNextWaitTime, Created(ExponentialBackoff, 0), Retry(Readings(t, t, t, 0.0)));
            && ShouldRetry(CalculateNextWaitTime, after, Readings(t, t, t, 0.0)).1 == Answered(RetryLater)
            && ShouldRetry(CalculateNextWaitTime, after, Readings(t, t + 1, t + 1, 0.0)).1 == Answered(RetryNow)
  {
    var s := Created(ExponentialBackoff, 0);
    var after := Step(CalculateNextWaitTime, s, Retry(Readings(t, t, t, 0.0)));
    assert Pow2(0) == 1;
    assert after == s.(firstRetryTime := t, retryCount := 1, lastRetryTime := t, currentWait := 1);
  }

  // ----- The immediate policy -----

  ghost predicate ImmediateFollows(s: RetryState, retries: seq<Retried>) {
    && s.retryCount == |retries| % UINT32_RANGE
    && (|retries| == 0 <==> s.firstRetryTime == INDEFINITE_TIME)
    && (|retries| > 0 ==> s.firstRetryTime == retries[0].decidedAt)
    && s.lastRetryTime == INDEFINITE_TIME && s.currentWait == 0
  }

  lemma ImmediateStep(rule: WaitRule, s: RetryState, retries: seq<Retried>, r: Readings)
    requires s.policy == Immediate && ImmediateFollows(s, retries)
    ensures ImmediateFollows(ShouldRetry(rule, s, r).0, Appended(retries, rule, s, r))
    ensures ShouldRetry(rule, s, r).0.policy == s.policy && ShouldRetry(rule, s, r).0.maxRetryTime == s.maxRetryTime
  {
    CountsOn(|retries|);
  }

  lemma OptionKeepsImmediate(s: RetryState, retries: seq<Retried>, option: SettableOption, value: uint32)
    requires ImmediateFollows(s, retries)
    ensures var t := OptionSet(s, option, value).0;
            ImmediateFollows(t, retries) && t.policy == s.policy && t.maxRetryTime == s.maxRetryTime
  {
  }

  lemma NoRetriesYet(s: RetryState)
    requires IsReset(s)
    ensures ImmediateFollows(s, [])
  {
  }

  lemma {:induction false} ImmediateFields(rule: WaitRule, s: RetryState, calls: seq<Call>)
    requires IsReset(s) && s.policy == Immediate
    ensures ImmediateFollows(After(rule, s, calls), Retries(rule, s, calls))
    ensures After(rule, s, calls).policy == Immediate && After(rule, s, calls).maxRetryTime == s.maxRetryTime
  {
    hide ShouldRetry, ImmediateFollows, IsReset;
    if calls == [] {
      NoRetriesYet(s);
    } else {
      var earlier, call := calls[..|calls| - 1], calls[|calls| - 1];
      ImmediateFields(rule, s, earlier);
      match call {
        case Retry(r) => ImmediateStep(rule, After(rule, s, earlier), Retries(rule, s, earlier), r);
        case SetOption(option, value) =>
          OptionKeepsImmediate(After(rule, s, earlier), Retries(rule, s, earlier), option, value);
      }
    }
  }

  // Over every run of the immediate policy. Before the first retry, and while the count is at zero
  // again, a call is answered like a timed one. Any other call fails exactly when it cannot read the
  // clock, is told to stop exactly when the time allowed has passed, and else to retry: never to wait.
  lemma ImmediateAnswers(rule: WaitRule, s: RetryState, calls: seq<Call>, r: Readings)
    requires IsReset(s) && s.policy == Immediate
    ensures var retries := Retries(rule, s, calls);
            var outcome := ShouldRetry(rule, After(rule, s, calls), r).1;
            && (retries == [] && r.first == INDEFINITE_TIME ==> outcome == Failed)
            && (retries == [] && r.first != INDEFINITE_TIME ==> outcome == Answered(RetryNow))
            && (Wrapped(|retries|) ==> outcome == Answered(RetryNow))
            && (retries != [] && !Wrapped(|retries|) ==>
                  && (outcome == Failed <==> r.evaluate == INDEFINITE_TIME)
                  && (outcome == Answered(StopRetrying) <==>
                        r.evaluate != INDEFINITE_TIME && PastLimit(retries, s.maxRetryTime, r.evaluate))
                  && (outcome == Answered(RetryNow) <==>
                        r.evaluate != INDEFINITE_TIME && !PastLimit(retries, s.maxRetryTime, r.evaluate)))
  {
    hide Retries, After;
    ImmediateFields(rule, s, calls);
  }

  // ----- No retry -----

  // Without a retry policy every call of every run is told to stop, and reads no clock.
  lemma {:induction false} NoRetryStops(rule: WaitRule, s: RetryState, calls: seq<Call>, r: Readings)
    requires s.policy == NoRetry
    ensures After(rule, s, calls).policy == NoRetry && Retries(rule, s, calls) == []
    ensures ShouldRetry(rule, After(rule, s, calls), r) == (After(rule, s, calls), Answered(StopRetrying))
  {
    if calls != [] {
      NoRetryStops(rule, s, calls[..|calls| - 1], r);
    }
  }

  // ----- The exponential waits, one from the next -----

  lemma PowerDoubles(w: nat, n: nat, maxDelay: nat)
    ensures Min(w * Pow2(n + 1), maxDelay) == Min(2 * Min(w * Pow2(n), maxDelay), maxDelay)
    ensures Pow2(0) == 1
  {
    Doubled(w, Pow2(n));
  }

  lemma NextExponent(k: nat)
    requires (k + 1) % UINT32_RANGE != 0
    ensures (k + 1) % UINT32_RANGE == k % UINT32_RANGE + 1
  {
  }

  // Over any run with fixed options the first exponential wait is the option, up to the cap, and each
  // wait after that is twice the one before, up to the cap, unless the 32-bit count starts again with it.
  lemma ExponentialWaitsDouble(s: RetryState, calls: seq<Call>, k: nat)
    requires s.retryCount == 0 && s.policy == ExponentialBackoff && OptionsFixed(calls)
    requires k < |Retries(CalculateNextWaitTime, s, calls)|
    ensures var retries := Retries(CalculateNextWaitTime, s, calls);
            && (k % UINT32_RANGE == 0 ==> retries[k].wait == Min(s.initialWait, s.maxDelay))
            && (k + 1 < |retries| && (k + 1) % UINT32_RANGE != 0 ==>
                  retries[k + 1].wait == Min(2 * retries[k].wait, s.maxDelay))
  {
    hide CalculateNextWaitTime, Retries, ShouldRetry, Pow2;
    var retries := Retries(CalculateNextWaitTime, s, calls);
    WaitsFollowClosedForm(s, calls);
    assert WaitAsPromised(s, k + 1, retries[k].wait);
    PowerDoubles(s.initialWait, k % UINT32_RANGE, s.maxDelay);
    if k + 1 < |retries| && (k + 1) % UINT32_RANGE != 0 {
      assert WaitAsPromised(s, k + 2, retries[k + 1].wait);
      NextExponent(k);
    }
  }

  // ----- The random waits -----

  // `wait` is x rounded down.
  ghost predicate RoundedDown(wait: nat, x: real) {
    wait as real <= x < wait as real + 1.0
  }

  // A delay, lengthened by the drawn part of a percentage.
  function Lengthened(delay: nat, percent: nat, draw: Fraction): real {
    delay as real * (1.0 + percent as real / 100.0 * draw)
  }

  // A retry with jitter records the capped exponential wait, stretched by the drawn part of the
  // percentage and rounded down.
  lemma JitteredWait(s: RetryState, r: Readings)
    requires s.policy == ExponentialBackoffWithJitter
    requires ShouldRetry(CalculateNextWaitTime, s, r).1 == Answered(RetryNow)
    ensures var next := ShouldRetry(CalculateNextWaitTime, s, r).0;
            var base := Min(s.initialWait * Pow2((next.retryCount - 1) % UINT32_RANGE), s.maxDelay);
            RoundedDown(next.currentWait, Lengthened(base, s.maxJitterPercent, r.draw))
  {
    hide Jittered, Pow2, RoundedDown, Lengthened;
    var next := ShouldRetry(CalculateNextWaitTime, s, r).0;
    var base := Min(s.initialWait * Pow2((next.retryCount - 1) % UINT32_RANGE), s.maxDelay);
    assert next.currentWait == Jittered(base, s.maxJitterPercent, r.draw);
    JitterRoundsDown(base, s.maxJitterPercent, r.draw);
  }

  lemma JitterRoundsDown(delay: nat, maxJitterPercent: nat, draw: Fraction)
    ensures RoundedDown(Jittered(delay, maxJitterPercent, draw), Lengthened(delay, maxJitterPercent, draw))
  {
  }

  // A random retry records the drawn part of the option, rounded down.
  lemma RandomWait(s: RetryState, r: Readings)
    requires s.policy == Random
    requires ShouldRetry(CalculateNextWaitTime, s, r).1 == Answered(RetryNow)
    ensures RoundedDown(ShouldRetry(CalculateNextWaitTime, s, r).0.currentWait, s.initialWait as real * r.draw)
  {
  }
}
