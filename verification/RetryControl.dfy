/** The retry control: a timed state machine that answers "retry now", "retry later" or "stop",
    and spaces the retries with constant, linear, exponential, jittered or random waits. */
module RetryControl {
  import opened Words

  const INDEFINITE_TIME: int := -1
  const DEFAULT_MAX_DELAY_IN_SECS: uint32 := 30

  datatype RetryPolicy =
    | NoRetry
    | Immediate
    | Interval
    | LinearBackoff
    | ExponentialBackoff
    | ExponentialBackoffWithJitter
    | Random

  datatype RetryAction = RetryNow | RetryLater | StopRetrying

  datatype Outcome = Failed | Answered(action: RetryAction)

  datatype RetryState = RetryState(
    policy: RetryPolicy,
    maxRetryTime: uint32,
    initialWait: uint32,
    maxJitterPercent: uint32,
    maxDelay: uint32,
    retryCount: uint32,
    firstRetryTime: int,
    lastRetryTime: int,
    currentWait: nat)

  // rand() / RAND_MAX
  type Fraction = r: real | 0.0 <= r <= 1.0

  // What one call of should_retry may read: the clock up to three times (INDEFINITE_TIME when
  // the reading fails) and the random generator once. Readings a call does not reach are ignored.
  datatype Readings = Readings(first: int, evaluate: int, record: int, draw: Fraction)

  datatype SettableOption = InitialWaitTime | MaxJitterPercent | MaxDelay | Unsupported

  function Min(a: nat, b: nat): nat {
    if a <= b then a else b
  }

  function Pow2(exponent: nat): (r: nat)
    ensures r >= 1
  {
    if exponent == 0 then 1 else 2 * Pow2(exponent - 1)
  }

  function Created(policy: RetryPolicy, maxRetryTime: uint32): RetryState {
    var initialWait := if policy.ExponentialBackoff? || policy.ExponentialBackoffWithJitter? then 1 else 5;
    RetryState(policy, maxRetryTime, initialWait, 5, DEFAULT_MAX_DELAY_IN_SECS,
               0, INDEFINITE_TIME, INDEFINITE_TIME, 0)
  }

  function ResetState(s: RetryState): RetryState {
    s.(retryCount := 0, currentWait := 0, firstRetryTime := INDEFINITE_TIME, lastRetryTime := INDEFINITE_TIME)
  }

  function EvaluateRetryAction(s: RetryState, currentTime: int): Outcome {
    if s.retryCount == 0 then
      Answered(RetryNow)
    else if s.lastRetryTime == INDEFINITE_TIME && s.policy != Immediate then
      Failed
    else if currentTime == INDEFINITE_TIME then
      Failed
    else if s.maxRetryTime > 0 && currentTime - s.firstRetryTime >= s.maxRetryTime then
      Answered(StopRetrying)
    else if s.policy == Immediate then
      Answered(RetryNow)
    else if currentTime - s.lastRetryTime < s.currentWait then
      Answered(RetryLater)
    else
      Answered(RetryNow)
  }

  function ExponentialDelay(s: RetryState): nat {
    var baseDelay := s.initialWait * Pow2((s.retryCount - 1) % UINT32_RANGE);
    if baseDelay > s.maxDelay then s.maxDelay else baseDelay
  }

  function CalculateNextWaitTime(s: RetryState, draw: Fraction): nat {
    match s.policy
    case Interval => s.initialWait
    case LinearBackoff =>
      var baseDelay := (s.initialWait * s.retryCount) % UINT32_RANGE;
      if baseDelay > s.maxDelay then s.maxDelay else baseDelay
    case ExponentialBackoff => ExponentialDelay(s)
    case ExponentialBackoffWithJitter =>
      Jittered(ExponentialDelay(s), s.maxJitterPercent, draw)
    case Random => Scaled(s.initialWait, draw)
    case _ => 0
  }

  // base_delay * (1 + jitter), cast back to an integer.
  function Stretched(delay: nat, jitter: real): int {
    (delay as real * (1.0 + jitter)).Floor
  }

  function Jittered(delay: nat, maxJitterPercent: nat, draw: Fraction): (r: nat)
    ensures delay <= r <= Stretched(delay, maxJitterPercent as real / 100.0)
  {
    StretchedBounds(delay, maxJitterPercent as real / 100.0, draw);
    Stretched(delay, maxJitterPercent as real / 100.0 * draw)
  }

  lemma StretchedBounds(delay: nat, most: real, draw: Fraction)
    requires most >= 0.0
    ensures delay <= Stretched(delay, most * draw) <= Stretched(delay, most)
  {
    JitterBounds(delay as real, most, draw);
  }

  lemma JitterBounds(delay: real, most: real, draw: Fraction)
    requires delay >= 0.0 && most >= 0.0
    ensures delay <= delay * (1.0 + most * draw) <= delay * (1.0 + most)
  {
    var x := most * draw;
    ProductNotNegative(most, draw);
    ProductNotNegative(most, 1.0 - draw);
    assert most * (1.0 - draw) == most - x;
    ProductNotNegative(delay, x);
    ProductNotNegative(delay, most - x);
    assert delay * (1.0 + x) == delay + delay * x;
    assert delay * (1.0 + most) == delay + delay * x + delay * (most - x);
  }

  lemma ProductNotNegative(a: real, b: real)
    requires a >= 0.0 && b >= 0.0
    ensures a * b >= 0.0
  {
  }

  function Scaled(wait: nat, draw: Fraction): (r: nat)
    ensures r <= wait
  {
    ProductNotNegative(wait as real, draw);
    ProductNotNegative(wait as real, 1.0 - draw);
    assert wait as real * (1.0 - draw) == wait as real - wait as real * draw;
    (wait as real * draw).Floor
  }

  // How the next wait follows from the fields and a draw. Only the spacing of the retries depends
  // on it, so runs are studied for any rule; the code's rule is CalculateNextWaitTime.
  type WaitRule = (RetryState, Fraction) -> nat

  function Recorded(rule: WaitRule, s: RetryState, r: Readings): RetryState {
    var counted := s.(retryCount := (s.retryCount + 1) % UINT32_RANGE);
    if s.policy == Immediate then counted
    else
      var timed := counted.(lastRetryTime := r.record);
      timed.(currentWait := rule(timed, r.draw))
  }

  // retry_control_should_retry as a function of the fields and the readings.
  function ShouldRetry(rule: WaitRule, s: RetryState, r: Readings): (RetryState, Outcome) {
    if s.policy == NoRetry then
      (s, Answered(StopRetrying))
    else
      var started := if s.firstRetryTime == INDEFINITE_TIME then s.(firstRetryTime := r.first) else s;
      if started.firstRetryTime == INDEFINITE_TIME then
        (started, Failed)
      else
        var outcome := EvaluateRetryAction(started, r.evaluate);
        (if outcome == Answered(RetryNow) then Recorded(rule, started, r) else started, outcome)
  }

  function OptionSet(s: RetryState, option: SettableOption, value: uint32): (RetryState, bool) {
    match option
    case InitialWaitTime => if value < 1 then (s, false) else (s.(initialWait := value), true)
    case MaxJitterPercent => if value > 100 then (s, false) else (s.(maxJitterPercent := value), true)
    case MaxDelay => (s.(maxDelay := value), true)
    case Unsupported => (s, false)
  }

  class RetryControlInstance {
    var policy: RetryPolicy
    var maxRetryTimeInSecs: uint32
    var initialWaitTimeInSecs: uint32
    var maxJitterPercent: uint32
    var maxDelayInSecs: uint32
    var retryCount: uint32
    var firstRetryTime: int
    var lastRetryTime: int
    var currentWaitTimeInSecs: nat

    function Abs(): RetryState
      reads this
    {
      RetryState(policy, maxRetryTimeInSecs, initialWaitTimeInSecs, maxJitterPercent, maxDelayInSecs,
                 retryCount, firstRetryTime, lastRetryTime, currentWaitTimeInSecs)
    }

    constructor (policy: RetryPolicy, maxRetryTimeInSecs: uint32)
      ensures Abs() == Created(policy, maxRetryTimeInSecs)
      ensures IsReset(Abs())
      ensures this.policy == policy && this.maxRetryTimeInSecs == maxRetryTimeInSecs
      ensures initialWaitTimeInSecs == if policy in {ExponentialBackoff, ExponentialBackoffWithJitter} then 1 else 5
      ensures maxJitterPercent == 5 && maxDelayInSecs == 30
    {
      this.policy := policy;
      this.maxRetryTimeInSecs := maxRetryTimeInSecs;
      if policy == ExponentialBackoff || policy == ExponentialBackoffWithJitter {
        initialWaitTimeInSecs := 1;
      } else {
        initialWaitTimeInSecs := 5;
      }
      maxJitterPercent := 5;
      maxDelayInSecs := DEFAULT_MAX_DELAY_IN_SECS;
      new;
      Reset();
    }

    method Reset()
      modifies `retryCount, `currentWaitTimeInSecs, `firstRetryTime, `lastRetryTime
      ensures Abs() == ResetState(old(Abs()))
      ensures IsReset(Abs())
    {
      retryCount := 0;
      currentWaitTimeInSecs := 0;
      firstRetryTime := INDEFINITE_TIME;
      lastRetryTime := INDEFINITE_TIME;
    }

    method SetOption(option: SettableOption, value: uint32) returns (ok: bool)
      modifies this
      ensures (Abs(), ok) == OptionSet(old(Abs()), option, value)
      ensures ok <==>
        (option.InitialWaitTime? && value > 0) || (option.MaxJitterPercent? && value <= 100) || option.MaxDelay?
      ensures Abs() == old(Abs()).(initialWait := initialWaitTimeInSecs, maxJitterPercent := maxJitterPercent,
                                   maxDelay := maxDelayInSecs)
      ensures initialWaitTimeInSecs == if ok && option.InitialWaitTime? then value else old(initialWaitTimeInSecs)
      ensures maxJitterPercent == if ok && option.MaxJitterPercent? then value else old(maxJitterPercent)
      ensures maxDelayInSecs == if option.MaxDelay? then value else old(maxDelayInSecs)
    {
      match option {
        case InitialWaitTime =>
          ok := value >= 1;
          if ok { initialWaitTimeInSecs := value; }
        case MaxJitterPercent =>
          ok := value <= 100;
          if ok { maxJitterPercent := value; }
        case MaxDelay =>
          maxDelayInSecs := value;
          ok := true;
        case Unsupported =>
          ok := false;
      }
    }

    method ShouldRetryNow(r: Readings) returns (outcome: Outcome)
      modifies this
      ensures (Abs(), outcome) == ShouldRetry(CalculateNextWaitTime, old(Abs()), r)
    {
      if policy == NoRetry {
        return Answered(StopRetrying);
      }
      if firstRetryTime == INDEFINITE_TIME {
        firstRetryTime := r.first;
        if firstRetryTime == INDEFINITE_TIME {
          return Failed;
        }
      }
      outcome := EvaluateRetryAction(Abs(), r.evaluate);
      if outcome == Answered(RetryNow) {
        retryCount := (retryCount + 1) % UINT32_RANGE;
        if policy != Immediate {
          lastRetryTime := r.record;
          currentWaitTimeInSecs := CalculateNextWaitTime(Abs(), r.draw);
        }
      }
    }
  }

  // ----- Runs between two resets -----

  datatype Call = Retry(r: Readings) | SetOption(option: SettableOption, value: uint32)

  // A "retry now" answer: when it was decided, when it was recorded, and the wait then chosen.
  datatype Retried = Retried(decidedAt: int, recordedAt: int, wait: nat)

  ghost predicate IsReset(s: RetryState) {
    s.retryCount == 0 && s.firstRetryTime == INDEFINITE_TIME && s.lastRetryTime == INDEFINITE_TIME && s.currentWait == 0
  }

  function Step(rule: WaitRule, s: RetryState, call: Call): RetryState {
    match call
    case Retry(r) => ShouldRetry(rule, s, r).0
    case SetOption(option, value) => OptionSet(s, option, value).0
  }

  function After(rule: WaitRule, s: RetryState, calls: seq<Call>): RetryState {
    if calls == [] then s else Step(rule, After(rule, s, calls[..|calls| - 1]), calls[|calls| - 1])
  }

  predicate Answers(rule: WaitRule, s: RetryState, call: Call, action: RetryAction) {
    call.Retry? && ShouldRetry(rule, s, call.r).1 == Answered(action)
  }

  // The retries of a run, in order. The first decision reads no clock of its own: it is taken
  // in the call that sets first_retry_time, and that reading dates it. Nor does a decision taken
  // when the 32-bit count has come round; the reading it would have made dates it.
  function Retries(rule: WaitRule, s: RetryState, calls: seq<Call>): seq<Retried> {
    if calls == [] then []
    else
      var before, call := After(rule, s, calls[..|calls| - 1]), calls[|calls| - 1];
      var earlier := Retries(rule, s, calls[..|calls| - 1]);
      if Answers(rule, before, call, RetryNow) then
        var next := Step(rule, before, call);
        earlier + [Retried(if earlier == [] then next.firstRetryTime else call.r.evaluate,
                           call.r.record, next.currentWait)]
      else
        earlier
  }

  predicate Stopped(rule: WaitRule, s: RetryState, calls: seq<Call>) {
    calls != [] &&
    (Stopped(rule, s, calls[..|calls| - 1])
     || Answers(rule, After(rule, s, calls[..|calls| - 1]), calls[|calls| - 1], StopRetrying))
  }

  // The clock never goes back: `Latest` is the newest successful reading.
  function Advance(now: int, reading: int): int {
    if reading == INDEFINITE_TIME then now else reading
  }

  function Latest(start: int, calls: seq<Call>): int {
    if calls == [] then start
    else
      var now, call := Latest(start, calls[..|calls| - 1]), calls[|calls| - 1];
      match call
      case Retry(r) => Advance(Advance(Advance(now, r.first), r.evaluate), r.record)
      case SetOption(_, _) => now
  }

  predicate NotBefore(reading: int, now: int) {
    reading == INDEFINITE_TIME || now <= reading
  }

  predicate ClockNeverGoesBack(start: int, calls: seq<Call>) {
    calls == [] ||
    var now, call := Latest(start, calls[..|calls| - 1]), calls[|calls| - 1];
    && ClockNeverGoesBack(start, calls[..|calls| - 1])
    && (call.Retry? ==>
          && NotBefore(call.r.first, now)
          && NotBefore(call.r.evaluate, Advance(now, call.r.first))
          && NotBefore(call.r.record, Advance(Advance(now, call.r.first), call.r.evaluate)))
  }

  predicate Timed(policy: RetryPolicy) {
    policy != NoRetry && policy != Immediate
  }

  function WaitSum(retries: seq<Retried>): nat {
    if retries == [] then 0 else WaitSum(retries[..|retries| - 1]) + retries[|retries| - 1].wait
  }

  // The second retry is decided no earlier than the first one's wait after it was recorded.
  predicate WaitKept(earlier: Retried, later: Retried) {
    earlier.recordedAt != INDEFINITE_TIME && later.decidedAt >= earlier.recordedAt + earlier.wait
  }

  predicate RecordedAfterDecided(retried: Retried) {
    retried.recordedAt != INDEFINITE_TIME ==> retried.decidedAt <= retried.recordedAt
  }

  // Consecutive retries are at least the recorded wait apart.
  ghost predicate Spaced(retries: seq<Retried>) {
    forall i, j :: 0 <= i && j == i + 1 && j < |retries| ==> WaitKept(retries[i], retries[j])
  }

  // The decision on retry number i (counting from 0) finds the 32-bit count at zero again.
  predicate Wrapped(i: nat) {
    i > 0 && i % UINT32_RANGE == 0
  }

  // The fields since a reset, in terms of the retries of the run.
  ghost predicate FieldsFollow(s: RetryState, retries: seq<Retried>) {
    && s.retryCount == |retries| % UINT32_RANGE
    && (|retries| == 0 <==> s.firstRetryTime == INDEFINITE_TIME)
    && (|retries| > 0 ==>
          && s.firstRetryTime == retries[0].decidedAt
          && s.lastRetryTime == retries[|retries| - 1].recordedAt
          && s.currentWait == retries[|retries| - 1].wait)
  }

  // Every decision that looked at the clock kept the wait and the time allowed.
  ghost predicate Timely(retries: seq<Retried>, maxRetryTime: nat) {
    && (forall i, j :: 0 <= i && j == i + 1 && j < |retries| && !Wrapped(j) ==> WaitKept(retries[i], retries[j]))
    && (forall i :: 0 <= i < |retries| && !Wrapped(i) ==>
          && RecordedAfterDecided(retries[i])
          && (maxRetryTime > 0 ==> retries[i].decidedAt < retries[0].decidedAt + maxRetryTime))
  }

  ghost predicate RunInvariant(s: RetryState, retries: seq<Retried>, stopped: bool, now: int) {
    && Timed(s.policy)
    && FieldsFollow(s, retries)
    && (|retries| > 0 ==>
          s.firstRetryTime <= now && (s.lastRetryTime == INDEFINITE_TIME || s.lastRetryTime <= now))
    && Timely(retries, s.maxRetryTime)
    && (stopped ==>
          |retries| > 0 && s.retryCount != 0 && s.maxRetryTime > 0 && now >= s.firstRetryTime + s.maxRetryTime)
  }

  function Appended(retries: seq<Retried>, rule: WaitRule, s: RetryState, r: Readings): seq<Retried> {
    var (next, outcome) := ShouldRetry(rule, s, r);
    if outcome == Answered(RetryNow) then
      retries + [Retried(if retries == [] then next.firstRetryTime else r.evaluate, r.record, next.currentWait)]
    else retries
  }

  lemma CountsOn(n: nat)
    ensures (n % UINT32_RANGE + 1) % UINT32_RANGE == (n + 1) % UINT32_RANGE
  {
  }

  lemma RetryKeepsFields(rule: WaitRule, s: RetryState, retries: seq<Retried>, r: Readings)
    requires Timed(s.policy) && FieldsFollow(s, retries)
    ensures FieldsFollow(ShouldRetry(rule, s, r).0, Appended(retries, rule, s, r))
    ensures ShouldRetry(rule, s, r).0.policy == s.policy && ShouldRetry(rule, s, r).0.maxRetryTime == s.maxRetryTime
  {
    CountsOn(|retries|);
  }

  lemma OptionKeepsInvariant(rule: WaitRule, s: RetryState, retries: seq<Retried>, stopped: bool, now: int,
                             option: SettableOption, value: uint32)
    requires RunInvariant(s, retries, stopped, now)
    ensures RunInvariant(Step(rule, s, SetOption(option, value)), retries, stopped, now)
  {
  }

  // The fields follow the retries over every run, however long.
  lemma {:induction false} FieldsFollowRetries(rule: WaitRule, s: RetryState, calls: seq<Call>)
    requires IsReset(s) && Timed(s.policy)
    ensures FieldsFollow(After(rule, s, calls), Retries(rule, s, calls))
    ensures After(rule, s, calls).policy == s.policy && After(rule, s, calls).maxRetryTime == s.maxRetryTime
  {
    hide ShouldRetry, FieldsFollow;
    if calls == [] {
      ResetFollows(s);
    } else {
      var earlier, call := calls[..|calls| - 1], calls[|calls| - 1];
      FieldsFollowRetries(rule, s, earlier);
      match call {
        case Retry(r) => RetryKeepsFields(rule, After(rule, s, earlier), Retries(rule, s, earlier), r);
        case SetOption(option, value) =>
          OptionKeepsFields(After(rule, s, earlier), Retries(rule, s, earlier), option, value);
      }
    }
  }

  lemma ResetFollows(s: RetryState)
    requires IsReset(s)
    ensures FieldsFollow(s, [])
  {
  }

  lemma OptionKeepsFields(s: RetryState, retries: seq<Retried>, option: SettableOption, value: uint32)
    requires FieldsFollow(s, retries)
    ensures FieldsFollow(OptionSet(s, option, value).0, retries)
    ensures OptionSet(s, option, value).0.policy == s.policy
    ensures OptionSet(s, option, value).0.maxRetryTime == s.maxRetryTime
  {
  }

  // A retry that is not dated by the wrapped count was decided in time.
  lemma RetriedInTime(rule: WaitRule, s: RetryState, retries: seq<Retried>, now: int, r: Readings)
    requires RunInvariant(s, retries, false, now)
    requires NotBefore(r.first, now) && NotBefore(r.evaluate, Advance(now, r.first))
    requires NotBefore(r.record, Advance(Advance(now, r.first), r.evaluate))
    requires ShouldRetry(rule, s, r).1 == Answered(RetryNow)
    ensures Timely(Appended(retries, rule, s, r), s.maxRetryTime)
  {
    var next := ShouldRetry(rule, s, r).0;
    var newest := Retried(if retries == [] then next.firstRetryTime else r.evaluate, r.record, next.currentWait);
    var longer := retries + [newest];
    if retries != [] && !Wrapped(|retries|) {
      assert s.retryCount != 0;
      assert WaitKept(retries[|retries| - 1], newest);
    }
    forall i, j | 0 <= i && j == i + 1 && j < |longer| && !Wrapped(j) ensures WaitKept(longer[i], longer[j]) {
      assert j < |retries| ==> longer[i] == retries[i] && longer[j] == retries[j];
    }
  }

  lemma RetryKeepsInvariant(rule: WaitRule, s: RetryState, retries: seq<Retried>, stopped: bool, now: int, r: Readings)
    requires RunInvariant(s, retries, stopped, now)
    requires NotBefore(r.first, now)
    requires NotBefore(r.evaluate, Advance(now, r.first))
    requires NotBefore(r.record, Advance(Advance(now, r.first), r.evaluate))
    ensures var (next, outcome) := ShouldRetry(rule, s, r);
            var later := Advance(Advance(Advance(now, r.first), r.evaluate), r.record);
            RunInvariant(next, Appended(retries, rule, s, r), stopped || outcome == Answered(StopRetrying), later)
  {
    hide Timely;
    RetryKeepsFields(rule, s, retries, r);
    if ShouldRetry(rule, s, r).1 == Answered(RetryNow) {
      RetriedInTime(rule, s, retries, now, r);
    }
  }

  // The run keeps its invariant, however often the 32-bit count comes round.
  lemma {:induction false} RunKeepsInvariant(rule: WaitRule, s: RetryState, calls: seq<Call>, start: int)
    requires IsReset(s) && Timed(s.policy)
    requires ClockNeverGoesBack(start, calls)
    ensures RunInvariant(After(rule, s, calls), Retries(rule, s, calls), Stopped(rule, s, calls), Latest(start, calls))
    ensures After(rule, s, calls).maxRetryTime == s.maxRetryTime
  {
    hide ShouldRetry, RunInvariant;
    FieldsFollowRetries(rule, s, calls);
    if calls == [] {
      ResetIsInvariant(s, start);
    } else {
      var earlier, call := calls[..|calls| - 1], calls[|calls| - 1];
      RunKeepsInvariant(rule, s, earlier, start);
      var before, retries, stopped := After(rule, s, earlier), Retries(rule, s, earlier), Stopped(rule, s, earlier);
      match call {
        case Retry(r) => RetryKeepsInvariant(rule, before, retries, stopped, Latest(start, earlier), r);
        case SetOption(option, value) =>
          OptionKeepsInvariant(rule, before, retries, stopped, Latest(start, earlier), option, value);
      }
    }
  }

  lemma ResetIsInvariant(s: RetryState, start: int)
    requires IsReset(s) && Timed(s.policy)
    ensures RunInvariant(s, [], false, start)
  {
  }

  // ----- The budget -----

  lemma {:induction false} WaitSumWithin(retries: seq<Retried>, k: nat)
    requires Spaced(retries) && k < |retries|
    requires forall i :: 0 <= i < |retries| ==> RecordedAfterDecided(retries[i])
    ensures retries[0].decidedAt + WaitSum(retries[..k]) <= retries[k].decidedAt
  {
    if k > 0 {
      WaitSumWithin(retries, k - 1);
      assert retries[..k][..k - 1] == retries[..k - 1];
      assert WaitKept(retries[k - 1], retries[k]);
      assert RecordedAfterDecided(retries[k - 1]);
    }
  }

  // The retries up to the first decision that finds the count at zero again.
  function FirstRound(retries: seq<Retried>): seq<Retried> {
    retries[..Min(|retries|, UINT32_RANGE)]
  }

  lemma FirstRoundTimely(retries: seq<Retried>, maxRetryTime: nat)
    requires Timely(retries, maxRetryTime)
    ensures Spaced(FirstRound(retries))
    ensures forall i :: 0 <= i < |FirstRound(retries)| ==>
              && RecordedAfterDecided(FirstRound(retries)[i])
              && (maxRetryTime > 0 ==> retries[i].decidedAt < retries[0].decidedAt + maxRetryTime)
  {
    forall i | 0 <= i < UINT32_RANGE ensures !Wrapped(i) {
    }
  }

  // Since the last reset, in a run of any length: retries keep their distance, and the waits
  // recorded before any retry add up to less than the time allowed, as long as the count has not
  // come round. Later too a retry keeps its distance, unless it is one decided with the count at zero.
  lemma RetryBudget(rule: WaitRule, s: RetryState, calls: seq<Call>, start: int)
    requires IsReset(s) && Timed(s.policy)
    requires ClockNeverGoesBack(start, calls)
    ensures Spaced(FirstRound(Retries(rule, s, calls)))
    ensures s.maxRetryTime > 0 ==>
      forall k :: 0 <= k < |FirstRound(Retries(rule, s, calls))| ==>
        WaitSum(FirstRound(Retries(rule, s, calls))[..k]) < s.maxRetryTime
    ensures Timely(Retries(rule, s, calls), s.maxRetryTime)
  {
    hide ShouldRetry, FieldsFollow, Timely;
    RunKeepsInvariant(rule, s, calls, start);
    var retries := Retries(rule, s, calls);
    FirstRoundTimely(retries, s.maxRetryTime);
    forall k | 0 <= k < |FirstRound(retries)| && s.maxRetryTime > 0
      ensures WaitSum(FirstRound(retries)[..k]) < s.maxRetryTime
    {
      WaitSumWithin(FirstRound(retries), k);
    }
  }

  predicate PastLimit(retries: seq<Retried>, maxRetryTime: nat, reading: int)
    requires retries != []
  {
    maxRetryTime > 0 && reading >= retries[0].decidedAt + maxRetryTime
  }

  predicate StillWaiting(retries: seq<Retried>, reading: int)
    requires retries != []
  {
    reading < retries[|retries| - 1].recordedAt + retries[|retries| - 1].wait
  }

  // When a call has to be refused: the time allowed has passed, or the recorded wait has not.
  predicate Due(retries: seq<Retried>, maxRetryTime: nat, reading: int)
    requires retries != []
  {
    PastLimit(retries, maxRetryTime, reading) || StillWaiting(retries, reading)
  }

  // A call finds what it needs to compare: the reading recorded with the newest retry, and its own.
  predicate Comparable(retries: seq<Retried>, reading: int)
    requires retries != []
  {
    retries[|retries| - 1].recordedAt != INDEFINITE_TIME && reading != INDEFINITE_TIME
  }

  predicate MayRetry(retries: seq<Retried>, maxRetryTime: nat, r: Readings) {
    if retries == [] then r.first != INDEFINITE_TIME
    else Wrapped(|retries|) || (Comparable(retries, r.evaluate) && !Due(retries, maxRetryTime, r.evaluate))
  }

  // Exactly when the code meets that: over every run, a call made after n retries is told to retry
  // if and only if n is a positive multiple of 2^32, or the call can compare and need not be refused.
  // A call before any retry is told to retry if and only if it can read the clock.
  lemma RefusedUnlessWrapped(rule: WaitRule, s: RetryState, calls: seq<Call>, r: Readings)
    requires IsReset(s) && Timed(s.policy)
    ensures var retries := Retries(rule, s, calls);
            ShouldRetry(rule, After(rule, s, calls), r).1 == Answered(RetryNow)
            <==> MayRetry(retries, s.maxRetryTime, r)
  {
    hide Retries, After;
    FieldsFollowRetries(rule, s, calls);
  }

  lemma FailsWithoutRecord(rule: WaitRule, s: RetryState, retries: seq<Retried>, r: Readings)
    requires Timed(s.policy) && FieldsFollow(s, retries) && retries != [] && !Wrapped(|retries|)
    requires retries[|retries| - 1].recordedAt == INDEFINITE_TIME
    ensures ShouldRetry(rule, s, r) == (s, Failed)
  {
  }

  // The reading recorded with a retry is not checked. When it failed, every later call of the run
  // fails, unless the count has come round.
  lemma {:induction false} FailedRecordIsFinal(rule: WaitRule, s: RetryState, calls: seq<Call>, more: seq<Call>, r: Readings)
    requires IsReset(s) && Timed(s.policy)
    requires var retries := Retries(rule, s, calls);
             retries != [] && !Wrapped(|retries|) && retries[|retries| - 1].recordedAt == INDEFINITE_TIME
    ensures Retries(rule, s, calls + more) == Retries(rule, s, calls)
    ensures ShouldRetry(rule, After(rule, s, calls + more), r).1 == Failed
  {
    hide ShouldRetry, FieldsFollow, Wrapped;
    var longer := calls + more;
    if more == [] {
      assert longer == calls;
    } else {
      var fewer, call := more[..|more| - 1], more[|more| - 1];
      assert longer[..|longer| - 1] == calls + fewer && longer[|longer| - 1] == call;
      FailedRecordIsFinal(rule, s, calls, fewer, if call.Retry? then call.r else r);
    }
    FieldsFollowRetries(rule, s, longer);
    FailsWithoutRecord(rule, After(rule, s, longer), Retries(rule, s, longer), r);
  }

  // Once "stop" has been answered, every later call that succeeds answers "stop", in runs of any length.
  lemma StopIsFinal(rule: WaitRule, s: RetryState, calls: seq<Call>, start: int, r: Readings)
    requires IsReset(s) && Timed(s.policy)
    requires ClockNeverGoesBack(start, calls + [Retry(r)])
    requires Stopped(rule, s, calls)
    ensures ShouldRetry(rule, After(rule, s, calls), r).1 in {Failed, Answered(StopRetrying)}
  {
    hide ShouldRetry, RunInvariant;
    assert (calls + [Retry(r)])[..|calls|] == calls;
    RunKeepsInvariant(rule, s, calls, start);
    StoppedStaysStopped(rule, After(rule, s, calls), Retries(rule, s, calls), Latest(start, calls), r);
  }

  lemma StoppedStaysStopped(rule: WaitRule, s: RetryState, retries: seq<Retried>, now: int, r: Readings)
    requires RunInvariant(s, retries, true, now)
    requires NotBefore(r.evaluate, Advance(now, r.first)) && NotBefore(r.first, now)
    ensures ShouldRetry(rule, s, r).1 in {Failed, Answered(StopRetrying)}
  {
  }

  lemma OneMoreAtMost(rule: WaitRule, s: RetryState, calls: seq<Call>)
    requires calls != []
    ensures Retries(rule, s, calls[..|calls| - 1]) <= Retries(rule, s, calls)
    ensures |Retries(rule, s, calls)| <= |Retries(rule, s, calls[..|calls| - 1])| + 1
  {
  }

  ghost predicate EveryWaitPositive(retries: seq<Retried>) {
    forall i :: 0 <= i < |retries| ==> retries[i].wait >= 1
  }

  lemma CountWithinLimit(rule: WaitRule, s: RetryState, calls: seq<Call>, start: int)
    requires IsReset(s) && Timed(s.policy) && s.maxRetryTime > 0
    requires ClockNeverGoesBack(start, calls)
    requires |Retries(rule, s, calls)| <= UINT32_RANGE
    requires forall k :: 0 <= k < |Retries(rule, s, calls)| - 1 ==> Retries(rule, s, calls)[k].wait >= 1
    ensures |Retries(rule, s, calls)| <= s.maxRetryTime
  {
    RetryBudget(rule, s, calls, start);
    var retries := Retries(rule, s, calls);
    assert FirstRound(retries) == retries;
    if retries != [] {
      WaitSumAtLeast(retries[..|retries| - 1]);
    }
  }

  // With a time limit and waits of at least a second the 32-bit count cannot come round.
  lemma {:induction false} CountNeverWraps(rule: WaitRule, s: RetryState, calls: seq<Call>, start: int)
    requires IsReset(s) && Timed(s.policy) && s.maxRetryTime > 0
    requires ClockNeverGoesBack(start, calls)
    requires EveryWaitPositive(Retries(rule, s, calls))
    ensures |Retries(rule, s, calls)| <= s.maxRetryTime
  {
    if calls != [] {
      OneMoreAtMost(rule, s, calls);
      CountNeverWraps(rule, s, calls[..|calls| - 1], start);
      CountWithinLimit(rule, s, calls, start);
    }
  }

  lemma {:induction false} WaitSumAtLeast(retries: seq<Retried>)
    requires EveryWaitPositive(retries)
    ensures WaitSum(retries) >= |retries|
  {
    if retries != [] {
      WaitSumAtLeast(retries[..|retries| - 1]);
    }
  }

  // A random policy whose draws are all zero: every call at time t is a retry with no wait.
  function ZeroWaitCalls(t: int, count: nat): seq<Call> {
    if count == 0 then [] else ZeroWaitCalls(t, count - 1) + [Retry(Readings(t, t, t, 0.0))]
  }

  // The rule draws no wait at all when the policy is Random and the draw is zero.
  ghost predicate ZeroOnZeroDraw(rule: WaitRule) {
    forall s: RetryState :: s.policy == Random ==> rule(s, 0.0) == 0
  }

  ghost predicate ZeroWaitState(s: RetryState, maxRetryTime: uint32, t: nat, count: nat) {
    && s.policy == Random && s.maxRetryTime == maxRetryTime
    && (count == 0 ==> IsReset(s))
    && (count > 0 ==> s.firstRetryTime == t && s.lastRetryTime == t && s.currentWait == 0)
  }

  lemma ZeroWaitStep(rule: WaitRule, s: RetryState, maxRetryTime: uint32, t: nat, count: nat)
    requires ZeroOnZeroDraw(rule) && maxRetryTime > 0
    requires ZeroWaitState(s, maxRetryTime, t, count)
    ensures ZeroWaitState(Step(rule, s, Retry(Readings(t, t, t, 0.0))), maxRetryTime, t, count + 1)
    ensures Answers(rule, s, Retry(Readings(t, t, t, 0.0)), RetryNow)
  {
  }

  lemma {:induction false} ZeroWaitRun(rule: WaitRule, s: RetryState, maxRetryTime: uint32, t: nat, count: nat)
    requires ZeroOnZeroDraw(rule) && maxRetryTime > 0
    requires ZeroWaitState(s, maxRetryTime, t, 0)
    ensures ZeroWaitState(After(rule, s, ZeroWaitCalls(t, count)), maxRetryTime, t, count)
    ensures |Retries(rule, s, ZeroWaitCalls(t, count))| == count
  {
    hide ShouldRetry, ZeroOnZeroDraw, ZeroWaitState, Step, Answers;
    if count > 0 {
      ZeroWaitRun(rule, s, maxRetryTime, t, count - 1);
      var earlier := ZeroWaitCalls(t, count - 1);
      ZeroWaitStep(rule, After(rule, s, earlier), maxRetryTime, t, count - 1);
      assert ZeroWaitCalls(t, count)[..|earlier|] == earlier;
    }
  }

  lemma CodeDrawsZero()
    ensures ZeroOnZeroDraw(CalculateNextWaitTime)
  {
    forall s: RetryState | s.policy == Random
      ensures CalculateNextWaitTime(s, 0.0) == 0
    {
      assert s.initialWait as real * 0.0 == 0.0;
    }
  }

  // The condition is met: 2^32 calls at time t that all draw no wait are all retries and bring the
  // count back to zero, and a call made when the time allowed has passed is then told to retry.
  lemma BudgetForgottenAfterWrap(maxRetryTime: uint32, t: nat)
    requires maxRetryTime > 0
    ensures var start := Created(Random, maxRetryTime);
            var calls := ZeroWaitCalls(t, UINT32_RANGE);
            var s, retries := After(CalculateNextWaitTime, start, calls), Retries(CalculateNextWaitTime, start, calls);
            var late := t + maxRetryTime;
            && |retries| == UINT32_RANGE && s.retryCount == 0
            && Due(retries, maxRetryTime, late)
            && ShouldRetry(CalculateNextWaitTime, s, Readings(late, late, late, 0.0)).1 == Answered(RetryNow)
  {
    hide ShouldRetry, CalculateNextWaitTime;
    var start, calls, late := Created(Random, maxRetryTime), ZeroWaitCalls(t, UINT32_RANGE), t + maxRetryTime;
    CodeDrawsZero();
    ZeroWaitRun(CalculateNextWaitTime, start, maxRetryTime, t, UINT32_RANGE);
    FieldsFollowRetries(CalculateNextWaitTime, start, calls);
    RefusedUnlessWrapped(CalculateNextWaitTime, start, calls, Readings(late, late, late, 0.0));
  }

  // ----- The waits -----

  ghost predicate OptionsFixed(calls: seq<Call>) {
    forall call <- calls :: call.Retry?
  }

  lemma {:induction false} FixedOptionsKeepFields(rule: WaitRule, s: RetryState, calls: seq<Call>)
    requires OptionsFixed(calls)
    ensures var t := After(rule, s, calls);
            && t.policy == s.policy && t.initialWait == s.initialWait
            && t.maxDelay == s.maxDelay && t.maxJitterPercent == s.maxJitterPercent
  {
    if calls != [] {
      FixedOptionsKeepFields(rule, s, calls[..|calls| - 1]);
    }
  }

  // The exponential wait of the k-th retry (counting from 1): the exponent is the 32-bit count less one.
  function ExponentialWait(s: RetryState, k: nat): nat
    requires k >= 1
  {
    Min(s.initialWait * Pow2((k - 1) % UINT32_RANGE), s.maxDelay)
  }

  // What the wait recorded with the k-th retry has to be.
  ghost predicate WaitAsPromised(s: RetryState, k: nat, wait: nat)
    requires k >= 1
  {
    match s.policy
    case Interval => wait == s.initialWait
    case LinearBackoff => wait == Min((s.initialWait * k) % UINT32_RANGE, s.maxDelay)
    case ExponentialBackoff => wait == ExponentialWait(s, k)
    case ExponentialBackoffWithJitter =>
      ExponentialWait(s, k) <= wait <= Stretched(ExponentialWait(s, k), s.maxJitterPercent as real / 100.0)
    case Random => wait <= s.initialWait
    case _ => true
  }

  lemma CountedModulo(k: nat)
    requires k >= 1
    ensures (k % UINT32_RANGE - 1) % UINT32_RANGE == (k - 1) % UINT32_RANGE
  {
  }

  lemma ProductModulo(w: nat, k: nat)
    ensures (w * (k % UINT32_RANGE)) % UINT32_RANGE == (w * k) % UINT32_RANGE
  {
    var q, r := k / UINT32_RANGE, k % UINT32_RANGE;
    assert w * k == w * r + UINT32_RANGE * (w * q);
    ShiftedModulo(w * r, w * q);
  }

  lemma ShiftedModulo(x: nat, q: nat)
    ensures (x + UINT32_RANGE * q) % UINT32_RANGE == x % UINT32_RANGE
  {
  }

  lemma NextWaitAsPromised(s: RetryState, k: nat, draw: Fraction)
    requires k >= 1 && s.retryCount == k % UINT32_RANGE
    ensures WaitAsPromised(s, k, CalculateNextWaitTime(s, draw))
  {
    CountedModulo(k);
    ProductModulo(s.initialWait, k);
  }

  lemma PromiseIsOfOptions(s: RetryState, t: RetryState, k: nat, wait: nat)
    requires t.policy == s.policy && t.initialWait == s.initialWait
    requires t.maxDelay == s.maxDelay && t.maxJitterPercent == s.maxJitterPercent && k >= 1
    ensures WaitAsPromised(t, k, wait) == WaitAsPromised(s, k, wait)
  {
  }

  predicate SameOptions(s: RetryState, t: RetryState) {
    && t.policy == s.policy && t.initialWait == s.initialWait
    && t.maxDelay == s.maxDelay && t.maxJitterPercent == s.maxJitterPercent
  }

  // `promised(k, w)` accepts every wait w that the rule gives with the k-th retry under s's options,
  // when the count shows k modulo 2^32.
  ghost predicate RuleKeeps(rule: WaitRule, s: RetryState, promised: (nat, nat) -> bool) {
    forall t: RetryState, draw: Fraction, k: nat ::
      SameOptions(s, t) && k >= 1 && t.retryCount == k % UINT32_RANGE ==> promised(k, rule(t, draw))
  }

  // A retry counts itself first, and takes its wait from the new count.
  lemma RetryNowShape(rule: WaitRule, s: RetryState, r: Readings)
    requires Timed(s.policy)
    ensures var (next, outcome) := ShouldRetry(rule, s, r);
            && next == s.(firstRetryTime := next.firstRetryTime, retryCount := next.retryCount,
                          lastRetryTime := next.lastRetryTime, currentWait := next.currentWait)
            && if outcome == Answered(RetryNow)
               then
                 && next.retryCount == (s.retryCount + 1) % UINT32_RANGE
                 && next.currentWait == rule(next.(currentWait := s.currentWait), r.draw)
               else next.retryCount == s.retryCount
  {
  }

  lemma {:induction false} WaitsFollowRule(rule: WaitRule, s: RetryState, calls: seq<Call>,
                                           promised: (nat, nat) -> bool)
    requires s.retryCount == 0 && Timed(s.policy) && OptionsFixed(calls)
    requires RuleKeeps(rule, s, promised)
    ensures After(rule, s, calls).retryCount == |Retries(rule, s, calls)| % UINT32_RANGE
    ensures forall i :: 0 <= i < |Retries(rule, s, calls)| ==> promised(i + 1, Retries(rule, s, calls)[i].wait)
  {
    hide ShouldRetry;
    if calls != [] {
      var earlier := calls[..|calls| - 1];
      WaitsFollowRule(rule, s, earlier, promised);
      FixedOptionsKeepFields(rule, s, earlier);
      OneMoreAtMost(rule, s, calls);
      RetryNowShape(rule, After(rule, s, earlier), calls[|calls| - 1].r);
      CountsOn(|Retries(rule, s, earlier)|);
      if Answers(rule, After(rule, s, earlier), calls[|calls| - 1], RetryNow) {
        var before, after := After(rule, s, earlier), After(rule, s, calls);
        assert SameOptions(s, after.(currentWait := before.currentWait));
      }
    }
  }

  // Over any run with fixed options, however long, the wait recorded with every retry is the closed form.
  lemma WaitsFollowClosedForm(s: RetryState, calls: seq<Call>)
    requires s.retryCount == 0 && Timed(s.policy) && OptionsFixed(calls)
    ensures var retries := Retries(CalculateNextWaitTime, s, calls);
            forall i :: 0 <= i < |retries| ==> WaitAsPromised(s, i + 1, retries[i].wait)
  {
    hide WaitAsPromised, CalculateNextWaitTime, ShouldRetry, Retries, After;
    var promised := (k: nat, wait: nat) => k >= 1 && WaitAsPromised(s, k, wait);
    forall t: RetryState, draw: Fraction, k: nat |
      SameOptions(s, t) && k >= 1 && t.retryCount == k % UINT32_RANGE
      ensures promised(k, CalculateNextWaitTime(t, draw))
    {
      NextWaitAsPromised(t, k, draw);
      PromiseIsOfOptions(s, t, k, CalculateNextWaitTime(t, draw));
    }
    WaitsFollowRule(CalculateNextWaitTime, s, calls, promised);
  }

  lemma Doubled(w: nat, x: nat)
    ensures w * (2 * x) == w * x + w * x >= w * x >= 0
  {
  }

  lemma {:induction false} CappedDoublingGrows(w: nat, maxDelay: nat, j: nat, k: nat)
    requires j <= k
    ensures w * Pow2(j) <= w * Pow2(k)
    ensures Min(w * Pow2(j), maxDelay) <= Min(w * Pow2(k), maxDelay)
  {
    if j < k {
      CappedDoublingGrows(w, maxDelay, j, k - 1);
      Doubled(w, Pow2(k - 1));
    }
  }

  lemma {:induction false} Pow2AtLeast(n: nat)
    ensures Pow2(n) >= n + 1
  {
    if n > 0 {
      Pow2AtLeast(n - 1);
    }
  }

  lemma {:induction false} DoublingGrows(w: nat, j: nat, k: nat)
    requires w >= 1 && j < k
    ensures w * Pow2(j) < w * Pow2(k)
  {
    Doubled(w, Pow2(k - 1));
    assert w * Pow2(k - 1) >= 1;
    if j < k - 1 {
      DoublingGrows(w, j, k - 1);
    }
  }

  // Capped doubling compares as its exponents do, unless the cap hides the difference.
  lemma CappedDoublingCompares(w: nat, maxDelay: nat, j: nat, k: nat)
    requires w >= 1
    ensures Min(w * Pow2(j), maxDelay) <= Min(w * Pow2(k), maxDelay) <==> j <= k || w * Pow2(k) >= maxDelay
  {
    if j <= k {
      CappedDoublingGrows(w, maxDelay, j, k);
    } else {
      DoublingGrows(w, k, j);
    }
  }

  // An exponent of 2^32 or more is beyond every cap.
  lemma LargeExponentIsCapped(w: nat, maxDelay: uint32, exponent: nat)
    requires w >= 1 && exponent >= UINT32_RANGE - 1
    ensures Min(w * Pow2(exponent), maxDelay) == maxDelay
  {
    Pow2AtLeast(exponent);
    assert w * Pow2(exponent) >= Pow2(exponent);
  }

  // Over any run with fixed options: the wait recorded with the k-th exponential retry is the capped
  // doubling exactly when the 32-bit count has not come round before it, or the cap hides that it has.
  lemma ExponentialWaitIsExactWhen(s: RetryState, calls: seq<Call>, k: nat)
    requires s.retryCount == 0 && s.policy == ExponentialBackoff && OptionsFixed(calls) && s.initialWait >= 1
    requires 1 <= k <= |Retries(CalculateNextWaitTime, s, calls)|
    ensures Retries(CalculateNextWaitTime, s, calls)[k - 1].wait == Min(s.initialWait * Pow2(k - 1), s.maxDelay)
       <==> k <= UINT32_RANGE || s.initialWait * Pow2((k - 1) % UINT32_RANGE) >= s.maxDelay
  {
    hide CalculateNextWaitTime, Retries, ShouldRetry, Pow2;
    WaitsFollowClosedForm(s, calls);
    assert WaitAsPromised(s, (k - 1) + 1, Retries(CalculateNextWaitTime, s, calls)[k - 1].wait);
    if k <= UINT32_RANGE {
      assert (k - 1) % UINT32_RANGE == k - 1;
    } else {
      LargeExponentIsCapped(s.initialWait, s.maxDelay, k - 1);
    }
  }

  // Over any run with fixed options: of two exponential waits the later one is no shorter exactly when
  // the 32-bit count has not come round to less between them, or the later one is at the cap.
  lemma ExponentialWaitsGrowWhen(s: RetryState, calls: seq<Call>, j: nat, k: nat)
    requires s.retryCount == 0 && s.policy == ExponentialBackoff && OptionsFixed(calls) && s.initialWait >= 1
    requires j <= k < |Retries(CalculateNextWaitTime, s, calls)|
    ensures var retries := Retries(CalculateNextWaitTime, s, calls);
            retries[j].wait <= retries[k].wait
            <==> j % UINT32_RANGE <= k % UINT32_RANGE || s.initialWait * Pow2(k % UINT32_RANGE) >= s.maxDelay
  {
    hide CalculateNextWaitTime, Retries, ShouldRetry, Pow2;
    var retries := Retries(CalculateNextWaitTime, s, calls);
    WaitsFollowClosedForm(s, calls);
    CappedDoublingCompares(s.initialWait, s.maxDelay, j % UINT32_RANGE, k % UINT32_RANGE);
    assert WaitAsPromised(s, j + 1, retries[j].wait);
    assert WaitAsPromised(s, k + 1, retries[k].wait);
  }

  // Calls that are always late enough: the k-th reads the clock at k times the gap.
  function PatientCalls(gap: nat, count: nat): seq<Call> {
    if count == 0 then []
    else PatientCalls(gap, count - 1) + [Retry(Readings(gap * count, gap * count, gap * count, 0.0))]
  }

  ghost predicate PatientState(s: RetryState, gap: nat, at: nat, started: bool) {
    && Timed(s.policy) && s.maxRetryTime == 0
    && (if started then s.firstRetryTime >= 0 && s.lastRetryTime == at && s.currentWait <= gap else IsReset(s))
  }

  // Under s's options the rule gives no wait above the gap.
  ghost predicate RuleWithin(rule: WaitRule, s: RetryState, gap: nat) {
    forall t: RetryState, draw: Fraction :: SameOptions(s, t) ==> rule(t, draw) <= gap
  }

  lemma WithinForSame(rule: WaitRule, s: RetryState, t: RetryState, gap: nat)
    requires RuleWithin(rule, s, gap) && SameOptions(s, t)
    ensures RuleWithin(rule, t, gap)
    ensures forall u: RetryState :: SameOptions(t, u) ==> SameOptions(s, u)
  {
  }

  lemma PatientStep(rule: WaitRule, s: RetryState, gap: nat, at: nat, started: bool)
    requires PatientState(s, gap, at, started)
    requires RuleWithin(rule, s, gap)
    ensures var call := Retry(Readings(at + gap, at + gap, at + gap, 0.0));
            && Answers(rule, s, call, RetryNow)
            && PatientState(Step(rule, s, call), gap, at + gap, true) && SameOptions(s, Step(rule, s, call))
  {
    var r := Readings(at + gap, at + gap, at + gap, 0.0);
    RetryNowShape(rule, s, r);
    var next := ShouldRetry(rule, s, r).0;
    assert SameOptions(s, next.(currentWait := s.currentWait));
  }

  lemma SameAsItself(s: RetryState)
    ensures SameOptions(s, s)
  {
  }

  lemma OneMoreGap(gap: nat, count: nat)
    requires count > 0
    ensures 0 <= gap * (count - 1) && gap * count == gap * (count - 1) + gap
  {
  }

  // Without a time limit, patient calls are all told to retry.
  lemma {:induction false} PatientRun(rule: WaitRule, s: RetryState, gap: nat, count: nat)
    requires PatientState(s, gap, 0, false)
    requires RuleWithin(rule, s, gap)
    ensures |Retries(rule, s, PatientCalls(gap, count))| == count
    ensures PatientState(After(rule, s, PatientCalls(gap, count)), gap, gap * count, count > 0)
    ensures SameOptions(s, After(rule, s, PatientCalls(gap, count)))
    ensures OptionsFixed(PatientCalls(gap, count))
  {
    hide ShouldRetry, Answers, Step, PatientState, RuleWithin, SameOptions;
    if count == 0 {
      SameAsItself(s);
    } else {
      PatientRun(rule, s, gap, count - 1);
      var earlier := PatientCalls(gap, count - 1);
      WithinForSame(rule, s, After(rule, s, earlier), gap);
      OneMoreGap(gap, count);
      PatientStep(rule, After(rule, s, earlier), gap, gap * (count - 1), count > 1);
      assert PatientCalls(gap, count)[..|earlier|] == earlier;
    }
  }

  lemma ExponentialWithinCap(s: RetryState)
    requires s.policy == ExponentialBackoff
    ensures RuleWithin(CalculateNextWaitTime, s, s.maxDelay)
  {
  }

  // The backoff does start again: the default exponential control without a time limit waits the full
  // cap with its 2^32-th retry and a second with the next.
  lemma ExponentialRestarts()
    ensures var calls := PatientCalls(DEFAULT_MAX_DELAY_IN_SECS, UINT32_RANGE + 1);
            var retries := Retries(CalculateNextWaitTime, Created(ExponentialBackoff, 0), calls);
            && |retries| == UINT32_RANGE + 1
            && retries[UINT32_RANGE - 1].wait == DEFAULT_MAX_DELAY_IN_SECS && retries[UINT32_RANGE].wait == 1
  {
    hide Retries, After, PatientCalls, ShouldRetry, CalculateNextWaitTime, Pow2;
    var s, calls := Created(ExponentialBackoff, 0), PatientCalls(DEFAULT_MAX_DELAY_IN_SECS, UINT32_RANGE + 1);
    ExponentialWithinCap(s);
    PatientRun(CalculateNextWaitTime, s, DEFAULT_MAX_DELAY_IN_SECS, UINT32_RANGE + 1);
    WaitsFollowClosedForm(s, calls);
    var retries := Retries(CalculateNextWaitTime, s, calls);
    assert WaitAsPromised(s, UINT32_RANGE - 1 + 1, retries[UINT32_RANGE - 1].wait);
    LargeExponentIsCapped(1, DEFAULT_MAX_DELAY_IN_SECS, UINT32_RANGE - 1);
    assert WaitAsPromised(s, UINT32_RANGE + 1, retries[UINT32_RANGE].wait);
    FirstPower();
  }

  lemma FirstPower()
    ensures Pow2(0) == 1
  {
  }

  // What the policy and its options promise as the k-th wait is at least a second; for linear
  // waits while the 32-bit product of the option and the time allowed does not wrap.
  ghost predicate WaitsArePositive(s: RetryState) {
    && s.initialWait >= 1
    && (s.policy == Interval
        || (s.maxDelay >= 1 &&
            (s.policy in {ExponentialBackoff, ExponentialBackoffWithJitter}
             || (s.policy == LinearBackoff && s.initialWait * s.maxRetryTime < UINT32_RANGE))))
  }

  // With constant, linear or exponential waits, a cap and a time limit of at least a second, the number
  // of retries never exceeds the limit in seconds, so the 32-bit count is the true count.
  lemma {:induction false} RetriesWithinLimit(s: RetryState, calls: seq<Call>, start: int)
    requires IsReset(s) && OptionsFixed(calls) && ClockNeverGoesBack(start, calls)
    requires WaitsArePositive(s) && s.maxRetryTime > 0
    ensures |Retries(CalculateNextWaitTime, s, calls)| <= s.maxRetryTime
  {
    hide CalculateNextWaitTime, ShouldRetry, WaitAsPromised, WaitsArePositive;
    PositiveMeansTimed(s);
    if calls != [] {
      var earlier := calls[..|calls| - 1];
      RetriesWithinLimit(s, earlier, start);
      OneMoreAtMost(CalculateNextWaitTime, s, calls);
      WaitsFollowClosedForm(s, earlier);
      var retries := Retries(CalculateNextWaitTime, s, earlier);
      forall i | 0 <= i < |retries| ensures retries[i].wait >= 1 {
        PromisedWaitPositive(s, i + 1, retries[i].wait);
      }
      CountWithinLimit(CalculateNextWaitTime, s, calls, start);
    }
  }

  lemma PositiveMeansTimed(s: RetryState)
    requires WaitsArePositive(s)
    ensures Timed(s.policy)
  {
  }

  lemma PromisedWaitPositive(s: RetryState, k: nat, wait: nat)
    requires WaitsArePositive(s) && 1 <= k <= s.maxRetryTime
    requires WaitAsPromised(s, k, wait)
    ensures wait >= 1
  {
    assert s.initialWait * Pow2((k - 1) % UINT32_RANGE) >= 1;
    LinearProduct(s.initialWait, k, s.maxRetryTime);
  }

  lemma LinearProduct(w: nat, k: nat, most: nat)
    requires w >= 1 && 1 <= k <= most
    ensures 1 <= w * k <= w * most
  {
    assert w * most == w * k + w * (most - k);
  }

  // Over any run of the linear policy with fixed options, the wait recorded with the k-th retry is
  // the uncapped product up to the cap exactly when the 32-bit product does not wrap, or wraps to
  // something the cap hides.
  lemma LinearWaitIsExactWhen(s: RetryState, calls: seq<Call>, k: nat)
    requires s.retryCount == 0 && s.policy == LinearBackoff && OptionsFixed(calls)
    requires 1 <= k <= |Retries(CalculateNextWaitTime, s, calls)|
    ensures Retries(CalculateNextWaitTime, s, calls)[k - 1].wait == Min(s.initialWait * k, s.maxDelay)
       <==> s.initialWait * k < UINT32_RANGE || (s.initialWait * k) % UINT32_RANGE >= s.maxDelay
  {
    hide CalculateNextWaitTime, Retries, ShouldRetry;
    WaitsFollowClosedForm(s, calls);
    var retries := Retries(CalculateNextWaitTime, s, calls);
    assert WaitAsPromised(s, (k - 1) + 1, retries[k - 1].wait);
    WrappedProduct(s.initialWait * k, s.maxDelay);
  }

  lemma WrappedProduct(product: nat, maxDelay: uint32)
    ensures Min(product % UINT32_RANGE, maxDelay) == Min(product, maxDelay)
       <==> product < UINT32_RANGE || product % UINT32_RANGE >= maxDelay
  {
  }

  // A linear policy with a first wait of 2^31 seconds and a cap of an hour.
  function HugeLinear(): RetryState {
    var wait := OptionSet(Created(LinearBackoff, 0), InitialWaitTime, 0x8000_0000).0;
    OptionSet(wait, MaxDelay, 3600).0
  }

  // Its first retry records the hour, its second, made when the hour has passed, no wait at all.
  lemma LinearWaitCanCollapse(t: nat)
    ensures var calls := [Retry(Readings(t, t, t, 0.0)), Retry(Readings(t, t + 3600, t + 3600, 0.0))];
            var retries := Retries(CalculateNextWaitTime, HugeLinear(), calls);
            |retries| == 2 && retries[0].wait == 3600 && retries[1].wait == 0
  {
    var first, second := Retry(Readings(t, t, t, 0.0)), Retry(Readings(t, t + 3600, t + 3600, 0.0));
    var s := HugeLinear();
    assert [first, second][..1] == [first] && [first][..0] == [];
    var after := Step(CalculateNextWaitTime, s, first);
    assert After(CalculateNextWaitTime, s, []) == s && After(CalculateNextWaitTime, s, [first]) == after;
    assert after == s.(firstRetryTime := t, retryCount := 1, lastRetryTime := t, currentWait := 3600);
    assert Answers(CalculateNextWaitTime, s, first, RetryNow) && Answers(CalculateNextWaitTime, after, second, RetryNow);
    assert Step(CalculateNextWaitTime, after, second).currentWait == 0;
    assert Retries(CalculateNextWaitTime, s, [first]) == [Retried(t, t, 3600)];
  }
}
