/** The results record `run_comprehensive_test` assembles and
    `calculate_performance_score` reads, with the ordered dictionary that holds
    the per-browser load times. */
module Report {
  import opened Wrappers
  import BrokenLinks
  import Mobile
  import LoadTest

  /** What `measure_page_load_time` obtains for one browser (seconds), or the
      text of the exception it caught. */
  datatype PageLoad =
    | Loaded(totalLoadTime: real, domContentLoaded: real, loadComplete: real,
             firstPaint: Option<real>, firstContentfulPaint: Option<real>)
    | LoadFailed(error: string)

  /** One value of the `load_times` dictionary: the measurement tagged with its browser. */
  datatype LoadTimeEntry = LoadTimeEntry(browser: string, measurement: PageLoad)

  /** A Python dict from browser name to entry, in insertion order. */
  type LoadTimes = seq<(string, LoadTimeEntry)>

  /** The result of `simulate_user_interactions`, which is passed through unchanged. */
  datatype Interaction =
    | FormInput(formIndex: nat, responseTime: real)
    | ButtonClick(buttonIndex: nat, responseTime: real)
  datatype InteractionsResult = Interactions(items: seq<Interaction>) | InteractionsError(error: string)

  datatype Config = Config(
    browsers: seq<string>,
    mobileTest: bool,
    linkCheck: bool,
    interactionTest: bool,
    loadTest: bool,
    concurrentUsers: int,
    loadDuration: int)

  /** The configuration used when the caller passes none. */
  const DefaultConfig := Config(["chrome"], true, true, true, true, 10, 30)

  /** The assembled results; an absent optional section is a missing dict key. */
  datatype TestResults = TestResults(
    url: string,
    timestamp: string,
    config: Config,
    loadTimes: LoadTimes,
    brokenLinks: Option<BrokenLinks.LinkReport>,
    mobileTest: Option<Mobile.MobileTest>,
    interactions: Option<InteractionsResult>,
    loadTest: Option<LoadTest.LoadSummary>)

  /** The results with the `performance_score` key added. */
  datatype FinalReport = FinalReport(results: TestResults, performanceScore: real)

  predicate HasKey(d: LoadTimes, k: string)
  {
    exists i :: 0 <= i < |d| && d[i].0 == k
  }

  predicate DistinctKeys(d: LoadTimes)
  {
    forall i, j :: 0 <= i < j < |d| ==> d[i].0 != d[j].0
  }

  /** `d[k]`, or None when the key is missing. */
  function Lookup(d: LoadTimes, k: string): Option<LoadTimeEntry>
  {
    if d == [] then None else if d[0].0 == k then Some(d[0].1) else Lookup(d[1..], k)
  }

  /** `d[k] = v`: replaces the value in place when the key is present, otherwise
      appends the pair at the end. */
  function DictSet(d: LoadTimes, k: string, v: LoadTimeEntry): LoadTimes
  {
    if d == [] then [(k, v)]
    else if d[0].0 == k then [(k, v)] + d[1..]
    else [d[0]] + DictSet(d[1..], k, v)
  }

  /** After `d[k] = v`, `k` maps to `v` and every other key keeps its value. */
  lemma {:induction false} DictSetLookup(d: LoadTimes, k: string, v: LoadTimeEntry, k': string)
    ensures Lookup(DictSet(d, k, v), k') == if k' == k then Some(v) else Lookup(d, k')
  {
    if d != [] && d[0].0 != k {
      DictSetLookup(d[1..], k, v, k');
    }
  }

  lemma HasKeyTail(d: LoadTimes, k: string)
    requires d != []
    ensures HasKey(d, k) <==> d[0].0 == k || HasKey(d[1..], k)
  {
  }

  /** After `d[k] = v` the keys are those of `d` plus `k`, and the dict grew by
      one exactly when `k` was new. */
  lemma {:induction false} DictSetKeys(d: LoadTimes, k: string, v: LoadTimeEntry)
    ensures forall k' :: HasKey(DictSet(d, k, v), k') <==> HasKey(d, k') || k' == k
    ensures |DictSet(d, k, v)| == if HasKey(d, k) then |d| else |d| + 1
  {
    var r := DictSet(d, k, v);
    if d == [] {
      assert r[0].0 == k;
    } else {
      HasKeyTail(d, k);
      forall k' ensures HasKey(r, k') <==> HasKey(d, k') || k' == k {
        HasKeyTail(d, k');
        HasKeyTail(r, k');
        if d[0].0 == k {
          assert r[1..] == d[1..];
        } else {
          DictSetKeys(d[1..], k, v);
          assert r[1..] == DictSet(d[1..], k, v);
        }
      }
      if d[0].0 != k {
        DictSetKeys(d[1..], k, v);
      }
    }
  }

  /** `d[k] = v` never repeats a key. */
  lemma {:induction false} DictSetDistinct(d: LoadTimes, k: string, v: LoadTimeEntry)
    requires DistinctKeys(d)
    ensures DistinctKeys(DictSet(d, k, v))
  {
    var r := DictSet(d, k, v);
    if d != [] {
      assert DistinctKeys(d[1..]);
      if d[0].0 != k {
        var rest := DictSet(d[1..], k, v);
        DictSetDistinct(d[1..], k, v);
        DictSetKeys(d[1..], k, v);
        forall j | 0 < j < |r| ensures r[0].0 != r[j].0 {
          var key := r[j].0;
          assert rest[j - 1].0 == key;
          assert HasKey(rest, key);
          if key != k {
            var m :| 0 <= m < |d[1..]| && d[1..][m].0 == key;
            assert d[m + 1].0 == key;
          }
        }
        forall i, j | 0 < i < j < |r| ensures r[i].0 != r[j].0 {
          assert rest[i - 1].0 != rest[j - 1].0;
        }
      }
    }
  }
}
