/** The scoring part of `test_mobile_responsiveness`: the browser readings are
    inputs, the responsiveness score is computed from them step by step. */
module Mobile {
  import opened Wrappers

  /** What the mobile and the desktop browser sessions report about the page. */
  datatype Probe = Probe(
    mobileWidth: int,         // window.innerWidth in the mobile session
    mobileHeight: int,        // window.innerHeight in the mobile session
    desktopWidth: int,        // window.innerWidth in the desktop session
    viewportMetaCount: nat,   // number of meta[name='viewport'] elements
    mobileNavCount: nat)      // number of mobile navigation elements

  /** The `mobile_test` section of the report: the measurement, or the error dict. */
  datatype MobileTest =
    | Measured(mobileWidth: int, mobileHeight: int, desktopWidth: int,
               hasViewportMeta: bool, mobileNavElements: nat, responsivenessScore: int)
    | Failed(error: string)

  const BaseScore := 70
  const ScoreCap := 100

  function Indicator(b: bool): int
  {
    if b then 1 else 0
  }

  /** The score as a closed form: 70 plus 15 for a viewport meta tag, 10 for
      mobile navigation elements and 5 when the mobile viewport is narrower. */
  function ExpectedScore(hasViewportMeta: bool, mobileNav: nat, mobileWidth: int, desktopWidth: int): int
  {
    BaseScore + 15 * Indicator(hasViewportMeta) + 10 * Indicator(mobileNav > 0)
              + 5 * Indicator(mobileWidth < desktopWidth)
  }

  /** Starts from the base score, adds each bonus that applies, caps at 100. */
  method ResponsivenessScore(hasViewportMeta: bool, mobileNav: nat, mobileWidth: int, desktopWidth: int)
    returns (score: int)
    ensures score == ExpectedScore(hasViewportMeta, mobileNav, mobileWidth, desktopWidth)
    ensures BaseScore <= score <= ScoreCap
  {
    score := BaseScore;
    if hasViewportMeta {
      score := score + 15;
    }
    if mobileNav > 0 {
      score := score + 10;
    }
    if mobileWidth < desktopWidth {
      score := score + 5;
    }
    score := if score < ScoreCap then score else ScoreCap;
  }

  /** What `test_mobile_responsiveness` returns for given browser readings. */
  function MobileResult(probe: Result<Probe>): MobileTest
  {
    match probe
    case Err(e) => Failed(e)
    case Ok(p) =>
      Measured(p.mobileWidth, p.mobileHeight, p.desktopWidth, p.viewportMetaCount > 0, p.mobileNavCount,
               ExpectedScore(p.viewportMetaCount > 0, p.mobileNavCount, p.mobileWidth, p.desktopWidth))
  }

  /** `test_mobile_responsiveness` once the browsers have answered: an error while
      driving either browser becomes the error dict, otherwise the readings are
      reported together with the score. */
  method TestMobileResponsiveness(probe: Result<Probe>) returns (r: MobileTest)
    ensures r == MobileResult(probe)
    ensures probe.Err? <==> r.Failed?
    ensures r.Measured? ==> BaseScore <= r.responsivenessScore <= ScoreCap
    ensures r.Measured? ==> r.hasViewportMeta == (probe.value.viewportMetaCount > 0)
  {
    match probe {
      case Err(e) =>
        r := Failed(e);
      case Ok(p) =>
        var hasViewportMeta := p.viewportMetaCount > 0;
        var score := ResponsivenessScore(hasViewportMeta, p.mobileNavCount, p.mobileWidth, p.desktopWidth);
        r := Measured(p.mobileWidth, p.mobileHeight, p.desktopWidth, hasViewportMeta, p.mobileNavCount, score);
    }
  }

  /** Scores below 85 are exactly those of pages without a viewport meta tag that
      do not also have both mobile navigation and a narrower mobile viewport. */
  lemma BelowEightyFive(hasViewportMeta: bool, mobileNav: nat, mobileWidth: int, desktopWidth: int)
    ensures ExpectedScore(hasViewportMeta, mobileNav, mobileWidth, desktopWidth) < 85
        <==> !hasViewportMeta && !(mobileNav > 0 && mobileWidth < desktopWidth)
  {
  }
}
