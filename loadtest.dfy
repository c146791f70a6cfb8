/** `load_test_simulation`: batches of concurrent requests are accumulated into
    one result list, which is then summarised. The time-bounded loop is a loop
    over a given number of batches; the outcome of each request is an input. */
module LoadTest {
  import opened Wrappers
  import Stats

  /** What `requests.get(url, timeout=30)` gives one virtual user: a response
      with its status and the elapsed seconds, or a raised exception. */
  datatype RequestOutcome = Responded(statusCode: int, elapsed: real) | Raised(error: string)

  /** The record `single_user_test` returns. */
  datatype UserResult = UserResult(responseTime: Option<real>, statusCode: Option<int>,
                                   success: bool, error: Option<string>)

  datatype LoadSummary = LoadSummary(
    totalRequests: nat,
    successfulRequests: nat,
    failedRequests: nat,
    successRate: real,
    avgResponseTime: Option<real>,
    minResponseTime: Option<real>,
    maxResponseTime: Option<real>,
    medianResponseTime: Option<real>)

  /** The text of the ValueError a thread pool raises for a worker count below one. */
  const PoolSizeError := "max_workers must be greater than 0"

  /** One virtual user: a response below 400 is a success; an exception is a
      failure without response time or status. */
  function SingleUserTest(o: RequestOutcome): UserResult
  {
    match o
    case Responded(code, t) => UserResult(Some(t), Some(code), code < 400, None)
    case Raised(e) => UserResult(None, None, false, Some(e))
  }

  /** A request succeeds exactly when it got a response with a status below 400;
      one that raised has neither a response time nor a status. */
  lemma SingleUserOutcome(o: RequestOutcome)
    ensures SingleUserTest(o).success <==> o.Responded? && o.statusCode < 400
    ensures o.Raised? ==> SingleUserTest(o).responseTime.None? && SingleUserTest(o).statusCode.None?
    ensures o.Responded? ==> SingleUserTest(o).responseTime == Some(o.elapsed)
                             && SingleUserTest(o).statusCode == Some(o.statusCode)
  {
  }

  /** The results of batch `k`, in the order its requests completed: slot `j`
      of `outcome(k, _)` is the `j`-th request of that batch to finish. */
  function Batch(outcome: (nat, nat) -> RequestOutcome, users: nat, k: nat): seq<UserResult>
  {
    seq(users, (j: int) requires 0 <= j < users => SingleUserTest(outcome(k, j)))
  }

  /** The result list after the first `k` batches. */
  function Accumulated(outcome: (nat, nat) -> RequestOutcome, users: nat, k: nat): seq<UserResult>
  {
    if k == 0 then [] else Accumulated(outcome, users, k - 1) + Batch(outcome, users, k - 1)
  }

  /** After k batches the list holds exactly k * users results. */
  lemma {:induction false} AccumulatedLength(outcome: (nat, nat) -> RequestOutcome, users: nat, k: nat)
    ensures |Accumulated(outcome, users, k)| == k * users
  {
    if k > 0 {
      AccumulatedLength(outcome, users, k - 1);
      assert k * users == (k - 1) * users + users;
    }
  }

  lemma MulMonotone(a: nat, c: nat, users: nat)
    requires a <= c
    ensures a * users <= c * users
  {
  }

  /** Request `j` of batch `b` sits at position b * users + j, and later batches
      never disturb it. */
  lemma {:induction false} AccumulatedAt(outcome: (nat, nat) -> RequestOutcome, users: nat, k: nat, b: nat, j: nat)
    requires b < k && j < users
    ensures b * users + j < |Accumulated(outcome, users, k)|
    ensures Accumulated(outcome, users, k)[b * users + j] == SingleUserTest(outcome(b, j))
  {
    var prev := Accumulated(outcome, users, k - 1);
    var last := Batch(outcome, users, k - 1);
    assert Accumulated(outcome, users, k) == prev + last;
    AccumulatedLength(outcome, users, k - 1);
    var idx := b * users + j;
    if b < k - 1 {
      MulMonotone(b + 1, k - 1, users);
      assert (b + 1) * users == idx - j + users;
      AccumulatedAt(outcome, users, k - 1, b, j);
      assert (prev + last)[idx] == prev[idx];
    } else {
      assert idx == |prev| + j;
      assert (prev + last)[idx] == last[j];
    }
  }

  /** The batch loop: each round submits `users` requests and appends every
      result as its request completes. */
  method RunBatches(users: nat, batchCount: nat, outcome: (nat, nat) -> RequestOutcome)
    returns (results: seq<UserResult>)
    ensures results == Accumulated(outcome, users, batchCount)
    ensures |results| == batchCount * users
  {
    results := [];
    var k := 0;
    while k < batchCount
      invariant 0 <= k <= batchCount
      invariant results == Accumulated(outcome, users, k)
    {
      ghost var before := results;
      var batch := Batch(outcome, users, k);
      for j := 0 to users
        invariant results == before + batch[..j]
      {
        assert batch[..j + 1] == batch[..j] + [batch[j]];
        results := results + [SingleUserTest(outcome(k, j))];
      }
      assert batch[..users] == batch;
      k := k + 1;
    }
    AccumulatedLength(outcome, users, batchCount);
  }

  function Successes(rs: seq<UserResult>): seq<UserResult>
  {
    if rs == [] then [] else (if rs[0].success then [rs[0]] else []) + Successes(rs[1..])
  }

  function Failures(rs: seq<UserResult>): seq<UserResult>
  {
    if rs == [] then [] else (if rs[0].success then [] else [rs[0]]) + Failures(rs[1..])
  }

  /** The response times of successful results, skipping missing and zero ones
      (Python drops falsy values). */
  function TimesOf(rs: seq<UserResult>): seq<real>
  {
    if rs == [] then []
    else
      (if rs[0].responseTime.Some? && rs[0].responseTime.value != 0.0 then [rs[0].responseTime.value] else [])
      + TimesOf(rs[1..])
  }

  function ResponseTimes(rs: seq<UserResult>): seq<real>
  {
    TimesOf(Successes(rs))
  }

  /** Every result is either a success or a failure. */
  lemma {:induction false} SuccessesAndFailures(rs: seq<UserResult>)
    ensures |Successes(rs)| + |Failures(rs)| == |rs|
    ensures forall r :: r in Successes(rs) ==> r in rs && r.success
    ensures forall r :: r in Failures(rs) ==> r in rs && !r.success
    ensures multiset(Successes(rs)) + multiset(Failures(rs)) == multiset(rs)
  {
    if rs != [] {
      SuccessesAndFailures(rs[1..]);
      assert rs == [rs[0]] + rs[1..];
      assert multiset(rs) == multiset{rs[0]} + multiset(rs[1..]);
    }
  }

  /** A successful result whose response time Python treats as true (present, non-zero). */
  predicate TimedSuccess(r: UserResult)
  {
    r.success && r.responseTime.Some? && r.responseTime.value != 0.0
  }

  lemma {:induction false} TimesOfAppend(a: seq<UserResult>, b: seq<UserResult>)
    ensures TimesOf(a + b) == TimesOf(a) + TimesOf(b)
  {
    if a != [] {
      assert (a + b)[1..] == a[1..] + b;
      TimesOfAppend(a[1..], b);
    } else {
      assert a + b == b;
    }
  }

  /** Every successful result with a non-zero response time contributes that
      time to the statistics. */
  lemma {:induction false} ResponseTimesComplete(rs: seq<UserResult>, i: int)
    requires 0 <= i < |rs| && TimedSuccess(rs[i])
    ensures rs[i].responseTime.value in ResponseTimes(rs)
  {
    var head := if rs[0].success then [rs[0]] else [];
    assert Successes(rs) == head + Successes(rs[1..]);
    TimesOfAppend(head, Successes(rs[1..]));
    if i > 0 {
      ResponseTimesComplete(rs[1..], i - 1);
    }
  }

  /** The statistics are non-empty exactly when some result is a timed success. */
  lemma ResponseTimesNonEmpty(rs: seq<UserResult>)
    ensures ResponseTimes(rs) != [] <==> exists i :: 0 <= i < |rs| && TimedSuccess(rs[i])
  {
    if ResponseTimes(rs) != [] {
      var t := ResponseTimes(rs)[0];
      ResponseTimesFromSuccesses(rs, t);
      var r :| r in rs && r.success && r.responseTime == Some(t);
      var i :| 0 <= i < |rs| && rs[i] == r;
      assert TimedSuccess(rs[i]);
    }
    if exists i :: 0 <= i < |rs| && TimedSuccess(rs[i]) {
      var i :| 0 <= i < |rs| && TimedSuccess(rs[i]);
      ResponseTimesComplete(rs, i);
    }
  }

  /** Each reported response time comes from a successful result that carried it. */
  lemma {:induction false} ResponseTimesFromSuccesses(rs: seq<UserResult>, t: real)
    requires t in ResponseTimes(rs)
    ensures t != 0.0
    ensures exists r :: r in rs && r.success && r.responseTime == Some(t)
  {
    SuccessesAndFailures(rs);
    TimesFromResults(Successes(rs), t);
  }

  lemma {:induction false} TimesFromResults(rs: seq<UserResult>, t: real)
    requires t in TimesOf(rs)
    ensures t != 0.0
    ensures exists r :: r in rs && r.responseTime == Some(t)
  {
    if rs[0].responseTime.Some? && rs[0].responseTime.value != 0.0 && rs[0].responseTime.value == t {
      assert rs[0] in rs;
    } else {
      TimesFromResults(rs[1..], t);
      var r :| r in rs[1..] && r.responseTime == Some(t);
      assert r in rs;
    }
  }

  /** `successes / total * 100`, and 0 when nothing was sent. */
  function SuccessRate(successes: nat, total: nat): real
  {
    if total == 0 then 0.0 else (successes as real) / (total as real) * 100.0
  }

  /** The rate is a percentage, and 100 exactly when every request succeeded. */
  lemma SuccessRateRange(successes: nat, total: nat)
    requires successes <= total
    ensures 0.0 <= SuccessRate(successes, total) <= 100.0
    ensures total > 0 ==> (SuccessRate(successes, total) == 100.0 <==> successes == total)
  {
    if total > 0 {
      var q := (successes as real) / (total as real);
      assert q * (total as real) == successes as real;
      assert (1.0 - q) * (total as real) == (total - successes) as real;
    }
  }

  /** The analysis at the end of `load_test_simulation`. */
  function Summarize(rs: seq<UserResult>): (s: LoadSummary)
    ensures s.totalRequests == |rs|
    ensures s.totalRequests == s.successfulRequests + s.failedRequests
    ensures s.successfulRequests == |Successes(rs)|
    ensures s.successRate == SuccessRate(s.successfulRequests, s.totalRequests)
    ensures 0.0 <= s.successRate <= 100.0
    ensures rs == [] ==> s.successRate == 0.0
    ensures rs != [] ==> (s.successRate == 100.0 <==> s.failedRequests == 0)
    ensures s.avgResponseTime.Some? == s.minResponseTime.Some? == s.maxResponseTime.Some?
            == s.medianResponseTime.Some? == (ResponseTimes(rs) != [])
    ensures s.avgResponseTime.Some? <==> exists i :: 0 <= i < |rs| && TimedSuccess(rs[i])
    ensures s.minResponseTime.Some? ==>
      s.minResponseTime.value in ResponseTimes(rs) && s.maxResponseTime.value in ResponseTimes(rs)
    ensures s.avgResponseTime.Some? ==> s.avgResponseTime.value == Stats.Mean(ResponseTimes(rs))
    ensures s.medianResponseTime.Some? ==> s.medianResponseTime.value == Stats.Median(ResponseTimes(rs))
    ensures s.minResponseTime.Some? ==>
      s.minResponseTime.value <= s.avgResponseTime.value <= s.maxResponseTime.value
      && s.minResponseTime.value <= s.medianResponseTime.value <= s.maxResponseTime.value
    ensures s.minResponseTime.Some? ==> forall i :: 0 <= i < |ResponseTimes(rs)| ==>
      s.minResponseTime.value <= ResponseTimes(rs)[i] <= s.maxResponseTime.value
  {
    var ok := Successes(rs);
    var bad := Failures(rs);
    var times := ResponseTimes(rs);
    SuccessesAndFailures(rs);
    SuccessRateRange(|ok|, |rs|);
    ResponseTimesNonEmpty(rs);
    if times == [] then
      LoadSummary(|rs|, |ok|, |bad|, SuccessRate(|ok|, |rs|), None, None, None, None)
    else
      Stats.MeanBetween(times);
      Stats.MedianBetween(times);
      LoadSummary(|rs|, |ok|, |bad|, SuccessRate(|ok|, |rs|),
                  Some(Stats.Mean(times)), Some(Stats.Minimum(times)),
                  Some(Stats.Maximum(times)), Some(Stats.Median(times)))
  }

  /** `load_test_simulation(url, concurrent_users, duration)` when the deadline
      lets `batchCount` batches start. A thread pool cannot be made with fewer
      than one worker, so a non-positive user count raises before any request. */
  method LoadTestSimulation(concurrentUsers: int, batchCount: nat, outcome: (nat, nat) -> RequestOutcome)
    returns (r: Result<LoadSummary>)
    ensures r.Err? <==> concurrentUsers <= 0
    ensures r.Err? ==> r.error == PoolSizeError
    ensures r.Ok? ==> r.value == Summarize(Accumulated(outcome, concurrentUsers, batchCount))
    ensures r.Ok? ==> r.value.totalRequests == batchCount * concurrentUsers
  {
    if concurrentUsers <= 0 {
      return Err(PoolSizeError);
    }
    var results := RunBatches(concurrentUsers, batchCount, outcome);
    r := Ok(Summarize(results));
  }
}
