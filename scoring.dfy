/** `calculate_performance_score`: start at 100, subtract a penalty per section
    of the results record, clamp into [0, 100]. */
module Scoring {
  import opened Wrappers
  import opened Report
  import BrokenLinks
  import Mobile
  import LoadTest

  const StartScore := 100.0

  /** One timed page load: 25 above 5 s, 15 above 3 s, 10 above 2 s, 5 above 1 s. */
  function LoadTimePenalty(t: real): real
  {
    if t > 5.0 then 25.0
    else if t > 3.0 then 15.0
    else if t > 2.0 then 10.0
    else if t > 1.0 then 5.0
    else 0.0
  }

  /** An entry without `total_load_time` (the error dict) costs nothing. */
  function EntryPenalty(e: LoadTimeEntry): real
  {
    if e.measurement.Loaded? then LoadTimePenalty(e.measurement.totalLoadTime) else 0.0
  }

  /** The load-time penalties of the dict's entries, in iteration order. */
  function LoadTimesPenalty(d: LoadTimes): real
  {
    if d == [] then 0.0 else LoadTimesPenalty(d[..|d| - 1]) + EntryPenalty(d[|d| - 1].1)
  }

  /** 10 per broken link when the section is a list; nothing for the error dict
      or a missing section (which reads as an empty list). */
  function BrokenLinksPenalty(b: Option<BrokenLinks.LinkReport>): real
  {
    match b
    case Some(Broken(links)) => 10.0 * (|links| as real)
    case _ => 0.0
  }

  /** 20 below 70, 10 below 85; nothing when no score was recorded. */
  function MobilePenalty(m: Option<Mobile.MobileTest>): real
  {
    match m
    case Some(Measured(_, _, _, _, _, score)) =>
      if score < 70 then 20.0 else if score < 85 then 10.0 else 0.0
    case _ => 0.0
  }

  /** Twice the shortfall of the success rate below 95. */
  function LoadTestPenalty(l: Option<LoadTest.LoadSummary>): real
  {
    match l
    case Some(s) => if s.successRate < 95.0 then (95.0 - s.successRate) * 2.0 else 0.0
    case None => 0.0
  }

  function TotalPenalty(r: TestResults): real
  {
    LoadTimesPenalty(r.loadTimes) + BrokenLinksPenalty(r.brokenLinks)
      + MobilePenalty(r.mobileTest) + LoadTestPenalty(r.loadTest)
  }

  /** `max(0, min(100, x))`. */
  function Clamp(x: real): (c: real)
    ensures 0.0 <= c <= 100.0
    ensures 0.0 <= x <= 100.0 ==> c == x
    ensures x < 0.0 ==> c == 0.0
    ensures x > 100.0 ==> c == 100.0
  {
    if x > 100.0 then 100.0 else if x < 0.0 then 0.0 else x
  }

  /** The score of a results record, as a closed form. */
  function ScoreOf(r: TestResults): real
  {
    Clamp(StartScore - TotalPenalty(r))
  }

  /** The scoring routine: subtracts each penalty from a running score, visiting
      the load-time entries one by one, then clamps. */
  method CalculatePerformanceScore(r: TestResults) returns (score: real)
    ensures score == ScoreOf(r)
    ensures 0.0 <= score <= 100.0
  {
    score := StartScore;
    var loadTimes := r.loadTimes;
    for i := 0 to |loadTimes|
      invariant score == StartScore - LoadTimesPenalty(loadTimes[..i])
    {
      assert loadTimes[..i + 1][..i] == loadTimes[..i];
      var data := loadTimes[i].1;
      if data.measurement.Loaded? {
        var loadTime := data.measurement.totalLoadTime;
        if loadTime > 5.0 {
          score := score - 25.0;
        } else if loadTime > 3.0 {
          score := score - 15.0;
        } else if loadTime > 2.0 {
          score := score - 10.0;
        } else if loadTime > 1.0 {
          score := score - 5.0;
        }
      }
    }
    assert loadTimes[..|loadTimes|] == loadTimes;

    match r.brokenLinks {
      case Some(Broken(links)) =>
        score := score - (|links| as real) * 10.0;
      case _ =>
    }

    match r.mobileTest {
      case Some(Measured(_, _, _, _, _, mobileScore)) =>
        if mobileScore < 70 {
          score := score - 20.0;
        } else if mobileScore < 85 {
          score := score - 10.0;
        }
      case _ =>
    }

    match r.loadTest {
      case Some(s) =>
        if s.successRate < 95.0 {
          score := score - (95.0 - s.successRate) * 2.0;
        }
      case None =>
    }

    score := if score < 100.0 then score else 100.0;
    score := if score > 0.0 then score else 0.0;
  }

  /** The load-time brackets partition the reals: exactly one applies, and the
      worst one that matches is charged. */
  lemma LoadTimeBrackets(t: real)
    ensures LoadTimePenalty(t) == 25.0 <==> t > 5.0
    ensures LoadTimePenalty(t) == 15.0 <==> 3.0 < t <= 5.0
    ensures LoadTimePenalty(t) == 10.0 <==> 2.0 < t <= 3.0
    ensures LoadTimePenalty(t) == 5.0 <==> 1.0 < t <= 2.0
    ensures LoadTimePenalty(t) == 0.0 <==> t <= 1.0
  {
  }

  /** A slower page is never charged less. */
  lemma LoadTimePenaltyMonotone(t: real, u: real)
    requires t <= u
    ensures LoadTimePenalty(t) <= LoadTimePenalty(u)
  {
  }

  /** The load-time penalty of a dict is the sum over its parts: each entry is
      charged once, independently of the others. */
  lemma {:induction false} LoadTimesPenaltyAppend(d: LoadTimes, e: LoadTimes)
    ensures LoadTimesPenalty(d + e) == LoadTimesPenalty(d) + LoadTimesPenalty(e)
  {
    if e != [] {
      var init := e[..|e| - 1];
      assert (d + e)[..|d + e| - 1] == d + init;
      LoadTimesPenaltyAppend(d, init);
    } else {
      assert d + e == d;
    }
  }

  /** Every entry costs between 0 and 25, and entries holding only an error cost nothing. */
  lemma {:induction false} LoadTimesPenaltyRange(d: LoadTimes)
    ensures 0.0 <= LoadTimesPenalty(d) <= 25.0 * (|d| as real)
    ensures (forall i :: 0 <= i < |d| ==> d[i].1.measurement.LoadFailed?) ==> LoadTimesPenalty(d) == 0.0
  {
    if d != [] {
      LoadTimesPenaltyRange(d[..|d| - 1]);
    }
  }

  /** Every penalty is non-negative, so the unclamped score never exceeds 100. */
  lemma PenaltiesNonNegative(r: TestResults)
    ensures LoadTimesPenalty(r.loadTimes) >= 0.0
    ensures BrokenLinksPenalty(r.brokenLinks) >= 0.0
    ensures MobilePenalty(r.mobileTest) >= 0.0
    ensures LoadTestPenalty(r.loadTest) >= 0.0
    ensures StartScore - TotalPenalty(r) <= 100.0
  {
    LoadTimesPenaltyRange(r.loadTimes);
  }

  /** With no penalty at all the score is exactly 100, and with a total penalty
      of 100 or more it is exactly 0. */
  lemma ScoreExtremes(r: TestResults)
    ensures TotalPenalty(r) == 0.0 ==> ScoreOf(r) == 100.0
    ensures TotalPenalty(r) >= 100.0 ==> ScoreOf(r) == 0.0
    ensures 0.0 <= ScoreOf(r) <= 100.0
  {
  }

  /** Ten broken links already drive the score to 0, whatever else was measured. */
  lemma ManyBrokenLinksFloor(r: TestResults, links: seq<BrokenLinks.BrokenLink>)
    requires |links| >= 10
    ensures ScoreOf(r.(brokenLinks := Some(BrokenLinks.Broken(links)))) == 0.0
  {
    PenaltiesNonNegative(r.(brokenLinks := Some(BrokenLinks.Broken(links))));
  }

  /** One more broken link never raises the score; it lowers it by exactly 10
      unless the clamp at 0 absorbs part of the drop. */
  lemma OneMoreBrokenLink(r: TestResults, links: seq<BrokenLinks.BrokenLink>, extra: BrokenLinks.BrokenLink)
    ensures ScoreOf(r.(brokenLinks := Some(BrokenLinks.Broken(links + [extra]))))
         <= ScoreOf(r.(brokenLinks := Some(BrokenLinks.Broken(links))))
    ensures ScoreOf(r.(brokenLinks := Some(BrokenLinks.Broken(links)))) >= 10.0 ==>
      ScoreOf(r.(brokenLinks := Some(BrokenLinks.Broken(links + [extra]))))
        == ScoreOf(r.(brokenLinks := Some(BrokenLinks.Broken(links)))) - 10.0
  {
    var before := r.(brokenLinks := Some(BrokenLinks.Broken(links)));
    var after := r.(brokenLinks := Some(BrokenLinks.Broken(links + [extra])));
    PenaltiesNonNegative(before);
    assert TotalPenalty(after) == TotalPenalty(before) + 10.0;
  }

  /** A higher success rate never lowers the score. */
  lemma SuccessRateMonotone(r: TestResults, s: LoadTest.LoadSummary, rate: real)
    requires s.successRate <= rate
    ensures ScoreOf(r.(loadTest := Some(s))) <= ScoreOf(r.(loadTest := Some(s.(successRate := rate))))
  {
  }

  /** Replacing one browser's load time by a slower one never raises the score. */
  lemma SlowerPageNeverHelps(r: TestResults, i: nat, slower: real)
    requires i < |r.loadTimes|
    requires r.loadTimes[i].1.measurement.Loaded?
    requires r.loadTimes[i].1.measurement.totalLoadTime <= slower
    ensures var e := r.loadTimes[i];
            var d := r.loadTimes[i := (e.0, e.1.(measurement := e.1.measurement.(totalLoadTime := slower)))];
            ScoreOf(r.(loadTimes := d)) <= ScoreOf(r)
  {
    var e := r.loadTimes[i];
    var e' := (e.0, e.1.(measurement := e.1.measurement.(totalLoadTime := slower)));
    var d := r.loadTimes;
    var d' := d[i := e'];
    assert d == d[..i] + [e] + d[i + 1..];
    assert d' == d[..i] + [e'] + d[i + 1..];
    LoadTimesPenaltyAppend(d[..i] + [e], d[i + 1..]);
    LoadTimesPenaltyAppend(d[..i] + [e'], d[i + 1..]);
    assert (d[..i] + [e])[..i] == d[..i];
    assert (d[..i] + [e'])[..i] == d[..i];
    assert LoadTimesPenalty(d[..i] + [e]) == LoadTimesPenalty(d[..i]) + EntryPenalty(e.1);
    assert LoadTimesPenalty(d[..i] + [e']) == LoadTimesPenalty(d[..i]) + EntryPenalty(e'.1);
    LoadTimePenaltyMonotone(e.1.measurement.totalLoadTime, slower);
    assert TotalPenalty(r) <= TotalPenalty(r.(loadTimes := d'));
  }

  /** A responsiveness score produced by the mobile probe is never below 70, so
      the 20-point mobile penalty can only come from elsewhere; the 10-point one
      applies exactly when the page has no viewport meta tag and lacks mobile
      navigation or a narrower mobile viewport. */
  lemma MobilePenaltyOfProbe(probe: Result<Mobile.Probe>)
    ensures MobilePenalty(Some(Mobile.MobileResult(probe))) != 20.0
    ensures probe.Ok? ==>
      ((MobilePenalty(Some(Mobile.MobileResult(probe))) == 10.0) <==>
       (probe.value.viewportMetaCount == 0
        && !(probe.value.mobileNavCount > 0 && probe.value.mobileWidth < probe.value.desktopWidth)))
  {
  }
}
