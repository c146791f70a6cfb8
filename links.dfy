/** The classification loop of `check_broken_links`. The page's anchors and the
    outcome of the HEAD request for each of them are inputs. */
module BrokenLinks {
  import opened Wrappers

  /** What `requests.head(href, ...)` gives: a response status, or a raised
      `RequestException` (timeout, connection error, ...). */
  datatype HeadOutcome = Status(code: int) | RequestError

  /** An `<a>` element: its `href` attribute (absent is None), its visible text,
      and the outcome its HEAD request would have if it were issued. */
  datatype Anchor = Anchor(href: Option<string>, text: string, head: HeadOutcome)

  /** The `status_code` field of a report: the numeric status, or 'timeout/error'. */
  datatype StatusField = Code(code: int) | TimeoutOrError

  datatype BrokenLink = BrokenLink(url: string, statusCode: StatusField, text: string)

  /** The `broken_links` section: the list, or the error dict when driving the
      browser failed. */
  datatype LinkReport = Broken(links: seq<BrokenLink>) | PageError(error: string)

  /** Default of the `max_links` parameter. */
  const MaxLinksDefault := 50
  /** Reported link texts are cut to this many characters. */
  const TextLimit := 50

  /** Python's `s[:n]`, including a negative `n` counting from the end. */
  function PyTake<T>(s: seq<T>, n: int): (r: seq<T>)
    ensures |r| <= |s| && r == s[..|r|]
    ensures 0 <= n ==> |r| == if n < |s| then n else |s|
    ensures n < 0 ==> |r| == if |s| + n < 0 then 0 else |s| + n
  {
    if 0 <= n then (if n < |s| then s[..n] else s)
    else if |s| + n < 0 then [] else s[..|s| + n]
  }

  /** `text[:50]`: the first 50 characters, or all of them when there are fewer. */
  function Truncate(text: string): (r: string)
    ensures |r| <= TextLimit
    ensures |r| <= |text| && r == text[..|r|]
    ensures |text| <= TextLimit ==> r == text
    ensures |text| > TextLimit ==> |r| == TextLimit
  {
    if |text| <= TextLimit then text else text[..TextLimit]
  }

  predicate HasPrefix(s: string, prefix: string)
  {
    |prefix| <= |s| && s[..|prefix|] == prefix
  }

  /** Only present, absolute `http://` or `https://` hrefs are requested. */
  predicate IsCheckable(href: Option<string>)
  {
    href.Some? && (HasPrefix(href.value, "http://") || HasPrefix(href.value, "https://"))
  }

  /** A checked link is broken when its status is 400 or more or its request raised. */
  predicate IsBroken(a: Anchor)
  {
    IsCheckable(a.href) && (a.head.RequestError? || a.head.code >= 400)
  }

  function ReportOf(a: Anchor): BrokenLink
    requires IsCheckable(a.href)
  {
    BrokenLink(a.href.value,
               if a.head.RequestError? then TimeoutOrError else Code(a.head.code),
               Truncate(a.text))
  }

  /** The reports, in page order, of the broken links among `links`. */
  function BrokenAmong(links: seq<Anchor>): seq<BrokenLink>
  {
    if links == [] then []
    else
      var last := links[|links| - 1];
      BrokenAmong(links[..|links| - 1]) + (if IsBroken(last) then [ReportOf(last)] else [])
  }

  /** What `check_broken_links(url, max_links)` returns once the page has been read. */
  function LinkCheckResult(page: Result<seq<Anchor>>, maxLinks: int): LinkReport
  {
    match page
    case Err(e) => PageError(e)
    case Ok(anchors) => Broken(BrokenAmong(PyTake(anchors, maxLinks)))
  }

  /** `check_broken_links`: looks at the first `maxLinks` anchors of the page and
      reports each absolute http(s) link whose HEAD request failed or returned
      an error status. */
  method CheckBrokenLinks(page: Result<seq<Anchor>>, maxLinks: int) returns (r: LinkReport)
    ensures r == LinkCheckResult(page, maxLinks)
    ensures page.Err? <==> r.PageError?
    ensures r.Broken? && 0 <= maxLinks ==> |r.links| <= maxLinks
    ensures r.Broken? ==> forall k :: 0 <= k < |r.links| ==> |r.links[k].text| <= TextLimit
  {
    if page.Err? {
      return PageError(page.error);
    }
    var links := PyTake(page.value, maxLinks);
    var broken: seq<BrokenLink> := [];
    for i := 0 to |links|
      invariant broken == BrokenAmong(links[..i])
    {
      var link := links[i];
      assert links[..i + 1][..i] == links[..i];
      var href := link.href;
      if href.Some? && (HasPrefix(href.value, "http://") || HasPrefix(href.value, "https://")) {
        match link.head {
          case Status(code) =>
            if code >= 400 {
              broken := broken + [BrokenLink(href.value, Code(code), Truncate(link.text))];
            }
          case RequestError =>
            broken := broken + [BrokenLink(href.value, TimeoutOrError, Truncate(link.text))];
        }
      }
    }
    assert links[..|links|] == links;
    BrokenAmongLength(links);
    BrokenAmongTexts(links);
    r := Broken(broken);
  }

  /** At most one report per examined anchor. */
  lemma {:induction false} BrokenAmongLength(links: seq<Anchor>)
    ensures |BrokenAmong(links)| <= |links|
  {
    if links != [] {
      BrokenAmongLength(links[..|links| - 1]);
    }
  }

  /** A report is in the result exactly when some examined anchor is broken and
      produces it. */
  lemma {:induction false} BrokenAmongMembers(links: seq<Anchor>, b: BrokenLink)
    ensures b in BrokenAmong(links)
        <==> exists i :: 0 <= i < |links| && IsBroken(links[i]) && ReportOf(links[i]) == b
  {
    if links != [] {
      var init := links[..|links| - 1];
      BrokenAmongMembers(init, b);
      if exists i :: 0 <= i < |init| && IsBroken(init[i]) && ReportOf(init[i]) == b {
        var i :| 0 <= i < |init| && IsBroken(init[i]) && ReportOf(init[i]) == b;
        assert links[i] == init[i];
      }
      if exists i :: 0 <= i < |links| && IsBroken(links[i]) && ReportOf(links[i]) == b {
        var i :| 0 <= i < |links| && IsBroken(links[i]) && ReportOf(links[i]) == b;
        if i < |init| {
          assert init[i] == links[i];
        }
      }
    }
  }

  /** Every report names an absolute http(s) URL, has a text of at most 50
      characters, and carries an error status or the request failure marker. */
  lemma BrokenAmongTexts(links: seq<Anchor>)
    ensures forall k :: 0 <= k < |BrokenAmong(links)| ==>
      var b := BrokenAmong(links)[k];
      |b.text| <= TextLimit
      && (HasPrefix(b.url, "http://") || HasPrefix(b.url, "https://"))
      && (b.statusCode.Code? ==> b.statusCode.code >= 400)
  {
  }

  /** Anchors after the first `maxLinks` are never looked at. */
  lemma LaterAnchorsIgnored(page: seq<Anchor>, more: seq<Anchor>, maxLinks: int)
    requires 0 <= maxLinks <= |page|
    ensures LinkCheckResult(Ok(page + more), maxLinks) == LinkCheckResult(Ok(page), maxLinks)
  {
    assert PyTake(page + more, maxLinks) == PyTake(page, maxLinks);
  }
}
