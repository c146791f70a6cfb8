# Website performance tester — verified model of its deterministic core

`scripts/performance-test-selenium.py` drives real browsers (Selenium) and issues
HTTP requests to assess a web page. It then turns what it measured into a
report with a 0–100 performance score. This project models the deterministic
logic in that script. The browsers' and the network's answers are given as inputs:

- **Performance scoring** (`calculate_performance_score`). The score starts at 100.
  Each timed page load is charged 25, 15, 10 or 5 points according to the worst
  bracket its load time falls into (above 5, 3, 2 or 1 seconds). Each broken link
  costs 10 points. A responsiveness score below 70 costs 20, and one below 85
  costs 10. A load-test success rate below 95 % costs twice the shortfall. The
  result is clamped into [0, 100].
- **Responsiveness score** (in `test_mobile_responsiveness`). It is 70, plus 15 for a
  viewport meta tag, plus 10 when mobile navigation elements exist, plus 5 when
  the mobile viewport is narrower than the desktop one, capped at 100.
- **Load test** (`load_test_simulation`). Batches of `concurrent_users` requests are
  run until the deadline. Every result is appended to one list. The list is then
  summarised into counts, a success rate, and the mean, minimum, maximum and
  median of the successful response times.
- **Broken-link check** (`check_broken_links`). It looks at the first `max_links`
  anchors and checks only absolute `http://`/`https://` hrefs. A link is reported
  when its HEAD request returns status 400 or more, or raises. The reported link
  text is cut to 50 characters.
- **Report assembly** (`run_comprehensive_test`). It makes one `load_times` entry
  per distinct configured browser. Each optional section is present exactly when its
  configuration flag is set. The score is computed from the assembled record.

Modules: `Wrappers` (Option, Result), `Stats` (min, max, mean, median),
`Mobile`, `BrokenLinks`, `LoadTest`, `Report` (the results record and the
ordered `load_times` dictionary), `Scoring` and `Tester` (the assembly).

Modelling choices:
- Timings and rates are Python floats. They are modelled as exact `real`s.
- The score is a `real`, because the load-test penalty is fractional.
- The `load_times` dict is an insertion-ordered association list. Assigning to it
  follows Python's rules (`DictSet`): an existing key is overwritten in place, and
  a new key is appended.
- `max_links` is sliced with Python's rules, so a negative value counts from the
  end (`PyTake`).
- Nothing in `run_comprehensive_test` catches an exception, so three cases make
  the whole run fail (`Err`):
  - `setup_driver` returns None for a browser other than `chrome` or `firefox`.
    `measure_page_load_time` then raises `AttributeError` from `driver.quit()`
    in its `finally`.
  - A stage's `setup_driver` call raises. The call sits outside the stage's
    `try`, and whether it raises is an input.
  - A thread pool cannot be created with fewer than one worker, so a load test
    with `concurrent_users <= 0` raises `ValueError`.
- A response time of `0.0` is falsy in Python, so it is left out of the
  response-time statistics.
- A responsiveness score produced by the probe is never below 70. So the
  20-point mobile penalty is reachable only through other records
  (`Scoring.MobilePenaltyOfProbe`).

## Model

| member | source | states |
|---|---|---|
| `Scoring.CalculatePerformanceScore` | scripts/performance-test-selenium.py:336-375 | the running score, including the loop over the load-time entries, equals 100 minus the sum of the section penalties, clamped; the result lies in [0, 100] |
| `Scoring.Clamp` | scripts/performance-test-selenium.py:375 | the clamped value lies in [0, 100]; it equals the input inside that range, 0 below it and 100 above it |
| `Scoring.LoadTimeBrackets` | scripts/performance-test-selenium.py:343-352 | the five load-time brackets (25, 15, 10, 5, 0) apply exactly on (5,∞), (3,5], (2,3], (1,2] and (−∞,1], so exactly one applies and the worst matching one is charged |
| `Scoring.LoadTimePenaltyMonotone` | scripts/performance-test-selenium.py:345-352 | a slower load is never charged less |
| `Scoring.LoadTimesPenaltyAppend` | scripts/performance-test-selenium.py:341-352 | the load-time penalty of a dict is the sum over its parts, so each entry is charged exactly once |
| `Scoring.LoadTimesPenaltyRange` | scripts/performance-test-selenium.py:341-352 | the load-time penalty is between 0 and 25 per entry, and it is 0 when every entry holds only an error |
| `Scoring.PenaltiesNonNegative` | scripts/performance-test-selenium.py:338-375 | every section penalty is ≥ 0, so the unclamped score never exceeds 100 |
| `Scoring.ScoreExtremes` | scripts/performance-test-selenium.py:338-375 | no penalty gives exactly 100; a total penalty ≥ 100 gives exactly 0; the score lies in [0, 100] |
| `Scoring.ManyBrokenLinksFloor` | scripts/performance-test-selenium.py:354-375 | ten or more broken links drive the score to 0 whatever else was measured |
| `Scoring.OneMoreBrokenLink` | scripts/performance-test-selenium.py:354-357 | adding a broken link never raises the score, and lowers it by exactly 10 unless the clamp at 0 absorbs the drop |
| `Scoring.SuccessRateMonotone` | scripts/performance-test-selenium.py:368-373 | a higher load-test success rate never lowers the score |
| `Scoring.SlowerPageNeverHelps` | scripts/performance-test-selenium.py:340-352 | replacing one browser's load time by a slower one never raises the score |
| `Scoring.MobilePenaltyOfProbe` | scripts/performance-test-selenium.py:359-366 | for a mobile section produced by the probe, the penalty is never 20, and it is 10 exactly when there is no viewport meta tag and not both mobile navigation and a narrower viewport |
| `Mobile.ResponsivenessScore` | scripts/performance-test-selenium.py:155-170 | the score is 70 + 15·[viewport meta] + 10·[mobile nav > 0] + 5·[mobile width < desktop width], and lies in [70, 100] |
| `Mobile.TestMobileResponsiveness` | scripts/performance-test-selenium.py:132-177 | a browser error gives the error section; otherwise the readings are reported, `has_viewport_meta` is "at least one viewport meta element", and the score lies in [70, 100] |
| `Mobile.BelowEightyFive` | scripts/performance-test-selenium.py:156-162 | the score is below 85 exactly when there is no viewport meta tag and not both mobile navigation and a narrower mobile viewport |
| `BrokenLinks.PyTake` | scripts/performance-test-selenium.py:105 | `s[:n]` is a prefix of `s` of length min(n, len(s)) for n ≥ 0, and of length max(0, len(s)+n) for n < 0 |
| `BrokenLinks.Truncate` | scripts/performance-test-selenium.py:116 | the truncated text is a prefix of at most 50 characters, the whole text when it is that short, and exactly 50 characters otherwise |
| `BrokenLinks.CheckBrokenLinks` | scripts/performance-test-selenium.py:96-130 | the loop reports, in order, the broken links among the first `max_links` anchors; a page error gives the error section; at most `max_links` reports, each text ≤ 50 characters |
| `BrokenLinks.BrokenAmongLength` | scripts/performance-test-selenium.py:107-123 | at most one report per examined anchor |
| `BrokenLinks.BrokenAmongMembers` | scripts/performance-test-selenium.py:107-123 | a report is produced exactly when some examined anchor has an http(s) href and a status ≥ 400 or a failed request |
| `BrokenLinks.BrokenAmongTexts` | scripts/performance-test-selenium.py:109-123 | every report has an http(s) URL, a text of at most 50 characters, and a status ≥ 400 or the timeout/error marker |
| `BrokenLinks.LaterAnchorsIgnored` | scripts/performance-test-selenium.py:105 | anchors after the first `max_links` do not affect the result |
| `LoadTest.RunBatches` | scripts/performance-test-selenium.py:251-261 | after the batch loop the result list is the concatenation of the batches, in completion order, and holds batches × users results |
| `LoadTest.AccumulatedLength` | scripts/performance-test-selenium.py:255-259 | after k batches the list holds exactly k·concurrent_users results |
| `LoadTest.AccumulatedAt` | scripts/performance-test-selenium.py:256-259 | request j of batch b sits at position b·users + j, and later batches never disturb it |
| `LoadTest.SingleUserOutcome` | scripts/performance-test-selenium.py:233-249 | `single_user_test` succeeds exactly when the request got a status below 400; a response carries its time and status, and a raised request has neither |
| `LoadTest.SuccessesAndFailures` | scripts/performance-test-selenium.py:264-265 | every result is either successful or failed, and the two lists together hold every result exactly once (as multisets), so successful + failed = total |
| `LoadTest.ResponseTimesFromSuccesses` | scripts/performance-test-selenium.py:266 | every response time in the statistics is non-zero and comes from a successful result |
| `LoadTest.ResponseTimesComplete` | scripts/performance-test-selenium.py:266 | every successful result with a non-zero response time contributes that time to the statistics |
| `LoadTest.ResponseTimesNonEmpty` | scripts/performance-test-selenium.py:264-266 | the statistics have at least one time exactly when some result is a success with a non-zero response time |
| `LoadTest.SuccessRateRange` | scripts/performance-test-selenium.py:272 | the success rate is a percentage in [0, 100], and it is 100 exactly when every request succeeded |
| `LoadTest.Summarize` | scripts/performance-test-selenium.py:263-277 | total = successful + failed = number of results; the rate is successful/total·100 (0 with no results), lies in [0, 100] and 0 with no results; mean, min, max and median are present exactly when some successful result has a truthy time; min and max are times from that list and bound every time in it; the average is `Stats.Mean` and the median `Stats.Median` of those times; min ≤ mean ≤ max and min ≤ median ≤ max |
| `LoadTest.LoadTestSimulation` | scripts/performance-test-selenium.py:231-277 | fewer than one user raises the pool's ValueError; otherwise the summary is that of the accumulated batches and counts batches × users requests |
| `Stats.Minimum` | scripts/performance-test-selenium.py:274 | the minimum is an element and is ≤ every element |
| `Stats.Maximum` | scripts/performance-test-selenium.py:275 | the maximum is an element and is ≥ every element |
| `Stats.SumBetween` | scripts/performance-test-selenium.py:273 | a sum of n values in [lo, hi] lies in [n·lo, n·hi] |
| `Stats.MeanWithin` | scripts/performance-test-selenium.py:273 | the mean of values in [lo, hi] lies in [lo, hi] |
| `Stats.MeanBetween` | scripts/performance-test-selenium.py:273-275 | the exact mean `Stats.Mean` (`statistics.mean`, the sum divided by the count) satisfies min ≤ mean ≤ max |
| `Stats.Insert` | scripts/performance-test-selenium.py:276 | insertion adds exactly the one element |
| `Stats.InsertSorted` | scripts/performance-test-selenium.py:276 | inserting into an ascending sequence keeps it ascending |
| `Stats.SortAscending` | scripts/performance-test-selenium.py:276 | the sort is ascending and is a permutation of its input |
| `Stats.MedianBetween` | scripts/performance-test-selenium.py:274-276 | `Stats.Median` (`statistics.median`: the middle of the sorted times, or the mean of the two middle ones for an even count) satisfies min ≤ median ≤ max |
| `Report.DictSetLookup` | scripts/performance-test-selenium.py:303 | after `d[k] = v` (`Report.DictSet`: overwrite in place, or append a new key), k maps to v and every other key keeps its value |
| `Report.DictSetKeys` | scripts/performance-test-selenium.py:303 | after `d[k] = v` the keys are those of d plus k, and the dict grows by one exactly when k was new |
| `Report.DictSetDistinct` | scripts/performance-test-selenium.py:303 | assignment never repeats a key |
| `Tester.LoadTimesShape` | scripts/performance-test-selenium.py:301-304 | `load_times` has one entry per distinct configured browser (as many as browsers when they are distinct), and each holds the measurement of that browser's last call |
| `Tester.LoadTimesFailureIff` | scripts/performance-test-selenium.py:26-94 | the load-time stage raises exactly when some configured browser is neither chrome nor firefox, or its driver setup raises |
| `Tester.RunComprehensiveTest` | scripts/performance-test-selenium.py:279-334 | a missing config means the default one; the run fails exactly when a configured browser is unknown, a driver setup raises in a stage that runs, or a load test with fewer than one user is configured, and the error is that of the first stage that raises; otherwise each optional section is present exactly when its flag is set and holds that stage's result, `load_times` is filled browser by browser, and the score is that of the assembled record and lies in [0, 100] |

## Left out

- WebDriver setup, navigation, JavaScript timing collection and `driver.quit` (`setup_driver`, `measure_page_load_time`): these are foreign calls into a browser. Their results are inputs (`PageLoad`, `Probe`, the page's anchors). The millisecond-to-second conversions of the JavaScript timings are not modelled.
- `requests.head` and `requests.get` with their timeouts: network I/O. Their outcomes are inputs (`HeadOutcome`, `RequestOutcome`). A non-`RequestException` raised by `requests.head`, or an error while reading an anchor partway through the loop, makes the real code return the error dict. The model has only a page-level error for this.
- The thread pool, `time.time()`, the deadline `load_duration` and `time.sleep`: concurrency and timing. The number of batches started before the deadline is an input, and so is the order in which requests in a batch complete. `loadDuration` is carried in the configuration but does not drive the model.
- `simulate_user_interactions`: clicks, keystrokes and sleeps timed by the wall clock. Its result is an input, passed through into the `interactions` section.
- `print`, `datetime.now().isoformat()` (the timestamp is an input) and the JSON file written by the `__main__` block: I/O.
- Tester.RunComprehensiveTest: assumes `driver.quit()` on a real driver does not raise. An exception there would also escape the run.
- A configuration missing a key (a `KeyError` in the real code) cannot be expressed, because `Config` is a record with every field present.
- A results record that is not shaped like the one the script assembles (arbitrary dicts passed to `calculate_performance_score`) cannot be expressed.
- Floating-point rounding: reals are exact, so the mean, the median and the success rate are the exact values that the floating-point results approximate.
