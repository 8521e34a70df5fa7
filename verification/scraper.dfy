/**
 * scraper/__init__.py: `get_scraper` picks the back end from the
 * TOOL_DOUYIN_BACKEND setting, compared after lower-casing; anything but
 * "selenium" means Playwright. A scraper is one of the two back ends, and
 * the three operations the service calls dispatch on which one it is.
 */
module Scrapers {
  import opened Wrappers
  import opened Classifier
  import opened Browser
  import opened Links
  import PlaywrightImpl
  import SeleniumImpl

  /** The setting's default value. */
  const DefaultBackend := "playwright"

  datatype Backend = Playwright | Selenium

  /** `settings.TOOL_DOUYIN_BACKEND.lower() == "selenium"` chooses Selenium; every other value Playwright. */
  function SelectBackend(setting: string): (b: Backend)
    ensures b == Selenium ==> |setting| == |"selenium"|
  {
    if ToLower(setting) == "selenium" then Selenium else Playwright
  }

  /** Case-insensitive string equality, character by character. */
  predicate EqualsIgnoreCase(s: string, t: string)
  {
    |s| == |t| && forall i :: 0 <= i < |s| ==> Lower(s[i]) == Lower(t[i])
  }

  /** Selenium is chosen exactly when the setting spells "selenium" in any mix of cases, with nothing around it. */
  lemma SelectBackendIff(setting: string)
    ensures SelectBackend(setting) == Selenium <==> EqualsIgnoreCase(setting, "selenium")
  {
    var want := "selenium";
    if |setting| == |want| {
      var l := ToLower(setting);
      forall i | 0 <= i < |want|
        ensures l[i] == Lower(setting[i]) && Lower(want[i]) == want[i]
      {
        ToLowerAt(setting, i);
      }
      if EqualsIgnoreCase(setting, want) {
        assert l == want;
      }
    }
  }

  /** The default setting, the empty string and a padded value all fall back to Playwright. */
  lemma FallsBackToPlaywright()
    ensures SelectBackend(DefaultBackend) == Playwright
    ensures SelectBackend("") == Playwright
    ensures SelectBackend(" selenium") == Playwright
  {
    SelectBackendIff(DefaultBackend);
    SelectBackendIff("");
    SelectBackendIff(" selenium");
  }

  /** Upper-case "SELENIUM" selects Selenium. */
  lemma UpperCaseSelectsSelenium()
    ensures SelectBackend("SELENIUM") == Selenium
  {
    var s := "SELENIUM";
    assert forall i :: 0 <= i < |s| ==> Lower(s[i]) == Lower("selenium"[i]);
    SelectBackendIff(s);
  }

  /** A constructed scraper: one of the two back ends, each driving its own browser. */
  datatype Scraper =
    | PlaywrightBackend(pw: PlaywrightImpl.PlaywrightScraper)
    | SeleniumBackend(se: SeleniumImpl.SeleniumScraper)
  {
    function Kind(): Backend
    {
      if PlaywrightBackend? then Playwright else Selenium
    }

    function Browser(): Driver
    {
      match this
      case PlaywrightBackend(pw) => pw.browser
      case SeleniumBackend(se) => se.browser
    }
  }

  /** The calls of `open_home` on back end `b`. */
  function OpenHomeCalls(b: Backend): seq<Call>
  {
    match b
    case Playwright => PlaywrightImpl.OpenHomeCalls()
    case Selenium => SeleniumImpl.OpenHomeCalls()
  }

  /** The calls of `collect_video_links(seed, scrolls)` on back end `b` when none raises, `n` being the number of passes. */
  function CollectCalls(b: Backend, seed: Option<string>, feed: seq<seq<Href>>, from: nat, n: nat): seq<Call>
  {
    match b
    case Playwright => PlaywrightImpl.CollectCalls(seed, n)
    case Selenium => SeleniumImpl.CollectCalls(seed, feed, from, n)
  }

  /** The calls of `shutdown` on back end `b`; `firstClosed` says whether its first call returned. */
  function ShutdownCalls(b: Backend, firstClosed: bool): seq<Call>
  {
    match b
    case Playwright => PlaywrightImpl.ShutdownCalls(firstClosed)
    case Selenium => SeleniumImpl.ShutdownCalls()
  }

  /** The calls of opening the home page and collecting, when none of them raises. */
  function MainCalls(b: Backend, seed: Option<string>, feed: seq<seq<Href>>, from: nat, n: nat): seq<Call>
  {
    OpenHomeCalls(b) + CollectCalls(b, seed, feed, from, n)
  }

  /** Opening and collecting never release the browser. */
  lemma {:induction false} NoTeardownBeforeShutdown(b: Backend, seed: Option<string>, feed: seq<seq<Href>>, from: nat, n: nat)
    ensures forall c :: c in MainCalls(b, seed, feed, from, n) ==> !c.IsTeardown()
  {
    match b
    case Playwright =>
      PlaywrightImpl.NoTeardown(seed, n);
    case Selenium =>
      SeleniumImpl.NoWaits(seed, feed, from, n);
  }

  /** `shutdown` makes teardown calls only, and its last call always stops the driver. */
  lemma ShutdownReleases(b: Backend, firstClosed: bool)
    ensures forall c :: c in ShutdownCalls(b, firstClosed) ==> c.IsTeardown()
    ensures ShutdownCalls(b, firstClosed) != []
    ensures Last(ShutdownCalls(b, firstClosed)) == (if b == Playwright then StopPlaywright else Quit)
  {
  }

  function Last(calls: seq<Call>): Call
    requires calls != []
  {
    calls[|calls| - 1]
  }

  /** `get_scraper()`: a scraper of the back end the setting selects, over `browser`. */
  method GetScraper(setting: string, browser: Driver) returns (s: Scraper)
    ensures s.Kind() == SelectBackend(setting)
    ensures s.Browser() == browser
  {
    if SelectBackend(setting) == Selenium {
      var se := new SeleniumImpl.SeleniumScraper(browser);
      s := SeleniumBackend(se);
    } else {
      var pw := new PlaywrightImpl.PlaywrightScraper(browser);
      s := PlaywrightBackend(pw);
    }
  }

  method OpenHome(s: Scraper) returns (r: Outcome<()>)
    modifies s.Browser()
    ensures Ran(s.Browser().faulty, old(s.Browser().log), s.Browser().log, OpenHomeCalls(s.Kind()), r)
    ensures s.Browser().served == old(s.Browser().served)
  {
    match s
    case PlaywrightBackend(pw) =>
      r := pw.OpenHome();
    case SeleniumBackend(se) =>
      r := se.OpenHome();
  }

  method CollectVideoLinks(s: Scraper, seedUrl: Option<string>, scrolls: int) returns (r: Outcome<seq<string>>)
    modifies s.Browser()
    ensures Ran(s.Browser().faulty, old(s.Browser().log), s.Browser().log,
                CollectCalls(s.Kind(), seedUrl, s.Browser().feed, old(s.Browser().served), Rounds(scrolls)), r)
    ensures r.Returned? ==> Lists(r.value, Harvest(s.Browser().feed, old(s.Browser().served), Rounds(scrolls)))
  {
    match s
    case PlaywrightBackend(pw) =>
      r := pw.CollectVideoLinks(seedUrl, scrolls);
    case SeleniumBackend(se) =>
      r := se.CollectVideoLinks(seedUrl, scrolls);
  }

  method Shutdown(s: Scraper) returns (r: Outcome<()>)
    modifies s.Browser()
    ensures s.Browser().log == old(s.Browser().log) + ShutdownCalls(s.Kind(), |old(s.Browser().log)| !in s.Browser().faulty)
    ensures r.Returned? <==> Clean(s.Browser().faulty, |old(s.Browser().log)|, |s.Browser().log|)
    ensures r.Raised? ==> |old(s.Browser().log)| <= r.at < |s.Browser().log| && r.at in s.Browser().faulty
    ensures |s.Browser().log| - 1 in s.Browser().faulty ==> r == Raised(|s.Browser().log| - 1)
  {
    match s
    case PlaywrightBackend(pw) =>
      r := pw.Shutdown();
    case SeleniumBackend(se) =>
      r := se.Shutdown();
  }
}
