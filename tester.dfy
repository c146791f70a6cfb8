/** `run_comprehensive_test`: runs the enabled stages in order and assembles the
    results record, then adds the performance score computed from it. The
    answers of the browsers and of the network are inputs. */
module Tester {
  import opened Wrappers
  import opened Report
  import BrokenLinks
  import Mobile
  import LoadTest
  import Scoring

  /** What the outside world answers during one run. */
  datatype StageInputs = StageInputs(
    // the exception raised by setup_driver for the i-th load-time browser, if any
    loadSetup: (nat, string) -> Option<string>,
    // the result of the i-th call of measure_page_load_time, for the given browser
    measure: (nat, string) -> PageLoad,
    // the exception raised by setup_driver in the link, mobile and interaction stages, if any
    linkSetup: Option<string>,
    mobileSetup: Option<string>,
    interactionSetup: Option<string>,
    // the page's anchors as read by the link checker's browser, or the error it raised
    linkPage: Result<seq<BrokenLinks.Anchor>>,
    // the readings of the mobile and desktop sessions, or the error raised
    mobileProbe: Result<Mobile.Probe>,
    // the result of simulate_user_interactions
    interactions: InteractionsResult,
    // how many load-test batches start before the deadline
    loadBatches: nat,
    // the outcome of request j of load-test batch k, in completion order
    loadOutcome: (nat, nat) -> LoadTest.RequestOutcome)

  /** A missing configuration means the default one. */
  function EffectiveConfig(config: Option<Config>): Config
  {
    if config.None? then DefaultConfig else config.value
  }

  /** The browsers `setup_driver` can create; for any other name it returns None. */
  predicate KnownBrowser(browser: string)
  {
    browser == "chrome" || browser == "firefox"
  }

  /** The AttributeError raised by `driver.quit()` on the None an unknown browser
      name yields; it escapes the `finally` of `measure_page_load_time`. */
  const NoDriverError := "'NoneType' object has no attribute 'quit'"

  /** Measuring the i-th browser raises out of `measure_page_load_time`: its
      driver cannot be set up, or its name is unknown. */
  predicate MeasureRaises(i: nat, browser: string, setup: (nat, string) -> Option<string>)
  {
    !KnownBrowser(browser) || setup(i, browser).Some?
  }

  function MeasureError(i: nat, browser: string, setup: (nat, string) -> Option<string>): string
    requires MeasureRaises(i, browser, setup)
  {
    if !KnownBrowser(browser) then NoDriverError else setup(i, browser).value
  }

  /** The exception of the first browser from position `from` on whose measurement raises. */
  function LoadTimesFailure(browsers: seq<string>, setup: (nat, string) -> Option<string>, from: nat): Option<string>
    decreases |browsers| - from
  {
    if from >= |browsers| then None
    else if MeasureRaises(from, browsers[from], setup) then Some(MeasureError(from, browsers[from], setup))
    else LoadTimesFailure(browsers, setup, from + 1)
  }

  /** The load-time stage fails exactly when some configured browser's measurement raises. */
  lemma {:induction false} LoadTimesFailureIff(browsers: seq<string>, setup: (nat, string) -> Option<string>, from: nat)
    ensures LoadTimesFailure(browsers, setup, from).Some?
        <==> exists i :: from <= i < |browsers| && MeasureRaises(i, browsers[i], setup)
    decreases |browsers| - from
  {
    if from < |browsers| && !MeasureRaises(from, browsers[from], setup) {
      LoadTimesFailureIff(browsers, setup, from + 1);
    }
  }

  /** The exception that escapes `run_comprehensive_test`, if any: the stages run
      in order and the first one that raises ends the run. */
  function RunFailure(cfg: Config, inputs: StageInputs): Option<string>
  {
    var loadFailure := LoadTimesFailure(cfg.browsers, inputs.loadSetup, 0);
    if loadFailure.Some? then loadFailure
    else if cfg.linkCheck && inputs.linkSetup.Some? then inputs.linkSetup
    else if cfg.mobileTest && inputs.mobileSetup.Some? then inputs.mobileSetup
    else if cfg.interactionTest && inputs.interactionSetup.Some? then inputs.interactionSetup
    else if cfg.loadTest && cfg.concurrentUsers <= 0 then Some(LoadTest.PoolSizeError)
    else None
  }

  /** The `load_times` dict after assigning one measurement per listed browser, in order. */
  function LoadTimesAfter(browsers: seq<string>, measure: (nat, string) -> PageLoad): LoadTimes
  {
    if browsers == [] then []
    else
      var n := |browsers| - 1;
      DictSet(LoadTimesAfter(browsers[..n], measure), browsers[n],
              LoadTimeEntry(browsers[n], measure(n, browsers[n])))
  }

  /** `i` is the last position of `b` in `browsers`. */
  predicate IsLastIndex(browsers: seq<string>, b: string, i: int)
  {
    0 <= i < |browsers| && browsers[i] == b && forall j :: i < j < |browsers| ==> browsers[j] != b
  }

  predicate Distinct(browsers: seq<string>)
  {
    forall i, j :: 0 <= i < j < |browsers| ==> browsers[i] != browsers[j]
  }

  /** The dict has exactly one entry per distinct configured browser, holding the
      measurement of that browser's last call (a repeated browser overwrites). */
  lemma {:induction false} LoadTimesShape(browsers: seq<string>, measure: (nat, string) -> PageLoad)
    ensures DistinctKeys(LoadTimesAfter(browsers, measure))
    ensures forall b :: HasKey(LoadTimesAfter(browsers, measure), b) <==> b in browsers
    ensures |LoadTimesAfter(browsers, measure)| <= |browsers|
    ensures Distinct(browsers) ==> |LoadTimesAfter(browsers, measure)| == |browsers|
    ensures forall b :: b in browsers ==>
      exists i :: (IsLastIndex(browsers, b, i)
                   && Lookup(LoadTimesAfter(browsers, measure), b) == Some(LoadTimeEntry(b, measure(i, b))))
  {
    var d := LoadTimesAfter(browsers, measure);
    if browsers != [] {
      var n := |browsers| - 1;
      var init := browsers[..n];
      var prev := LoadTimesAfter(init, measure);
      var last := browsers[n];
      var entry := LoadTimeEntry(last, measure(n, last));
      assert d == DictSet(prev, last, entry);
      LoadTimesShape(init, measure);
      DictSetDistinct(prev, last, entry);
      DictSetKeys(prev, last, entry);
      assert browsers == init + [last];
      if Distinct(browsers) {
        assert last !in init;
        assert !HasKey(prev, last);
      }
      forall b | b in browsers
        ensures exists i :: (IsLastIndex(browsers, b, i)
                             && Lookup(d, b) == Some(LoadTimeEntry(b, measure(i, b))))
      {
        DictSetLookup(prev, last, entry, b);
        if b == last {
          assert IsLastIndex(browsers, b, n);
        } else {
          assert b in init;
          var i :| IsLastIndex(init, b, i) && Lookup(prev, b) == Some(LoadTimeEntry(b, measure(i, b)));
          assert IsLastIndex(browsers, b, i);
        }
      }
    }
  }

  /** `run_comprehensive_test(url, config)`. The load-time stage fills the dict one
      browser at a time; each optional stage runs and adds its section only when
      its flag is set; the score is computed from the assembled record. Nothing
      in the run catches what a stage raises: an unknown browser name, a driver
      that cannot be set up, or a load test with fewer than one user ends it. */
  method RunComprehensiveTest(url: string, config: Option<Config>, timestamp: string, inputs: StageInputs)
    returns (r: Result<FinalReport>)
    ensures var cfg := EffectiveConfig(config);
      r.Err? <==> (exists i :: 0 <= i < |cfg.browsers| && MeasureRaises(i, cfg.browsers[i], inputs.loadSetup))
                  || (cfg.linkCheck && inputs.linkSetup.Some?)
                  || (cfg.mobileTest && inputs.mobileSetup.Some?)
                  || (cfg.interactionTest && inputs.interactionSetup.Some?)
                  || (cfg.loadTest && cfg.concurrentUsers <= 0)
    ensures var cfg := EffectiveConfig(config);
      r.Err? ==> RunFailure(cfg, inputs) == Some(r.error)
    ensures r.Ok? ==>
      var cfg := EffectiveConfig(config);
      var res := r.value.results;
      res.url == url && res.timestamp == timestamp && res.config == cfg
      && res.loadTimes == LoadTimesAfter(cfg.browsers, inputs.measure)
      && (res.brokenLinks.Some? <==> cfg.linkCheck)
      && (res.brokenLinks.Some? ==>
            res.brokenLinks.value == BrokenLinks.LinkCheckResult(inputs.linkPage, BrokenLinks.MaxLinksDefault))
      && (res.mobileTest.Some? <==> cfg.mobileTest)
      && (res.mobileTest.Some? ==> res.mobileTest.value == Mobile.MobileResult(inputs.mobileProbe))
      && (res.interactions.Some? <==> cfg.interactionTest)
      && (res.interactions.Some? ==> res.interactions.value == inputs.interactions)
      && (res.loadTest.Some? <==> cfg.loadTest)
      && (res.loadTest.Some? ==>
            res.loadTest.value
              == LoadTest.Summarize(LoadTest.Accumulated(inputs.loadOutcome, cfg.concurrentUsers, inputs.loadBatches)))
      && r.value.performanceScore == Scoring.ScoreOf(res)
      && 0.0 <= r.value.performanceScore <= 100.0
  {
    var cfg := EffectiveConfig(config);

    LoadTimesFailureIff(cfg.browsers, inputs.loadSetup, 0);

    var loadTimes: LoadTimes := [];
    for i := 0 to |cfg.browsers|
      invariant loadTimes == LoadTimesAfter(cfg.browsers[..i], inputs.measure)
      invariant LoadTimesFailure(cfg.browsers, inputs.loadSetup, 0) == LoadTimesFailure(cfg.browsers, inputs.loadSetup, i)
    {
      assert cfg.browsers[..i + 1][..i] == cfg.browsers[..i];
      var browser := cfg.browsers[i];
      if !KnownBrowser(browser) {
        return Err(NoDriverError);
      }
      var setup := inputs.loadSetup(i, browser);
      if setup.Some? {
        return Err(setup.value);
      }
      loadTimes := DictSet(loadTimes, browser, LoadTimeEntry(browser, inputs.measure(i, browser)));
    }
    assert cfg.browsers[..|cfg.browsers|] == cfg.browsers;

    var brokenLinks: Option<BrokenLinks.LinkReport> := None;
    if cfg.linkCheck {
      if inputs.linkSetup.Some? {
        return Err(inputs.linkSetup.value);
      }
      var report := BrokenLinks.CheckBrokenLinks(inputs.linkPage, BrokenLinks.MaxLinksDefault);
      brokenLinks := Some(report);
    }

    var mobileTest: Option<Mobile.MobileTest> := None;
    if cfg.mobileTest {
      if inputs.mobileSetup.Some? {
        return Err(inputs.mobileSetup.value);
      }
      var m := Mobile.TestMobileResponsiveness(inputs.mobileProbe);
      mobileTest := Some(m);
    }

    var interactions: Option<InteractionsResult> := None;
    if cfg.interactionTest {
      if inputs.interactionSetup.Some? {
        return Err(inputs.interactionSetup.value);
      }
      interactions := Some(inputs.interactions);
    }

    var loadTest: Option<LoadTest.LoadSummary> := None;
    if cfg.loadTest {
      var summary := LoadTest.LoadTestSimulation(cfg.concurrentUsers, inputs.loadBatches, inputs.loadOutcome);
      if summary.Err? {
        return Err(summary.error);
      }
      loadTest := Some(summary.value);
    }

    var results := TestResults(url, timestamp, cfg, loadTimes, brokenLinks, mobileTest, interactions, loadTest);
    var score := Scoring.CalculatePerformanceScore(results);
    r := Ok(FinalReport(results, score));
  }
}
