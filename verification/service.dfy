/**
 * services/service.py: `crawl_links` builds the configured scraper, opens the
 * landing page, collects the video links from the (normalised) seed URL and
 * answers with them, the number of links and the configured back-end name.
 * Whatever happens after the scraper is built, it is shut down exactly once,
 * as the last thing the request does to the browser (`try ... finally`).
 */
module Service {
  import opened Wrappers
  import opened Classifier
  import opened Browser
  import opened Links
  import opened Scrapers

  /** The request body; `scrolls` defaults to 8. */
  datatype CrawlRequest = CrawlRequest(seedUrl: Option<string>, scrolls: int)

  const DefaultScrolls := 8

  /** A request with only the defaults: no seed URL and eight scroll passes. */
  function DefaultRequest(): CrawlRequest
  {
    CrawlRequest(None, DefaultScrolls)
  }

  /** The request defaults to no seed URL and eight passes, whatever `normalize_url` does. */
  lemma DefaultRequestPlan(normalize: string -> string)
    ensures SeedFor(DefaultRequest(), normalize).None?
    ensures Rounds(DefaultRequest().scrolls) == 8
  {
  }

  datatype CrawlResponse = CrawlResponse(count: int, links: seq<string>, backend: string)

  /** The success response: the links, how many there are, and the back-end setting as given. */
  function Respond(links: seq<string>, setting: string): (resp: CrawlResponse)
    ensures resp.count == |resp.links|
    ensures resp.links == links && resp.backend == setting
  {
    CrawlResponse(|links|, links, setting)
  }

  /** `normalize_url(str(req.seed_url)) if req.seed_url else None`. */
  function SeedFor(req: CrawlRequest, normalize: string -> string): (seed: Option<string>)
    ensures seed.Some? <==> req.seedUrl.Some? && req.seedUrl.value != ""
    ensures seed.Some? ==> seed.value == normalize(req.seedUrl.value)
  {
    if Present(req.seedUrl) then Some(normalize(req.seedUrl.value)) else None
  }

  /**
   * `crawl_links(req)`, with the setting TOOL_DOUYIN_BACKEND, `normalize_url`
   * and the browser passed in. The ghost `cut` is the log position where the
   * `try` block ended, and `attempt` what it produced.
   */
  method CrawlLinks(req: CrawlRequest, setting: string, normalize: string -> string, browser: Driver)
    returns (r: Outcome<CrawlResponse>, ghost cut: nat, ghost attempt: Outcome<seq<string>>)
    modifies browser
    ensures var main := MainCalls(SelectBackend(setting), SeedFor(req, normalize), browser.feed, old(browser.served), Rounds(req.scrolls));
      && |old(browser.log)| <= cut <= |browser.log|
      && Ran(browser.faulty, old(browser.log), browser.log[..cut], main, attempt)
    ensures browser.log[cut..] == ShutdownCalls(SelectBackend(setting), cut !in browser.faulty)
    ensures r.Returned? <==> attempt.Returned? && Clean(browser.faulty, cut, |browser.log|)
    ensures r.Returned? ==> r.value == Respond(attempt.value, setting)
    ensures r.Returned? ==> Lists(r.value.links, Harvest(browser.feed, old(browser.served), Rounds(req.scrolls)))
    ensures r.Raised? && Clean(browser.faulty, cut, |browser.log|) ==> r == Raised(attempt.at)
    ensures !Clean(browser.faulty, cut, |browser.log|) ==> cut <= r.at < |browser.log| && r.at in browser.faulty
    ensures |browser.log| - 1 in browser.faulty ==> r == Raised(|browser.log| - 1)
  {
    var scraper := GetScraper(setting, browser);
    var seed := SeedFor(req, normalize);
    var result;
    result, attempt := TryBlock(scraper, seed, req.scrolls, setting);
    cut := |browser.log|;
    ghost var logCut := browser.log;
    var down := Shutdown(scraper);
    assert browser.log[..cut] == logCut;
    r := if down.Raised? then Raised(down.at) else result;
  }

  /** The `try` block of `crawl_links`: open the home page, collect, and build the response. */
  method TryBlock(scraper: Scraper, seed: Option<string>, scrolls: int, setting: string)
    returns (result: Outcome<CrawlResponse>, ghost attempt: Outcome<seq<string>>)
    modifies scraper.Browser()
    ensures Ran(scraper.Browser().faulty, old(scraper.Browser().log), scraper.Browser().log,
                MainCalls(scraper.Kind(), seed, scraper.Browser().feed, old(scraper.Browser().served), Rounds(scrolls)), attempt)
    ensures result.Returned? <==> attempt.Returned?
    ensures result.Raised? ==> result == Raised(attempt.at)
    ensures result.Returned? ==> result.value == Respond(attempt.value, setting)
    ensures result.Returned? ==> Lists(attempt.value, Harvest(scraper.Browser().feed, old(scraper.Browser().served), Rounds(scrolls)))
  {
    var browser := scraper.Browser();
    ghost var log0, served0, b := browser.log, browser.served, scraper.Kind();
    var home := OpenHome(scraper);
    if home.Raised? {
      RanStop<(), seq<string>>(browser.faulty, log0, browser.log, OpenHomeCalls(b),
                               CollectCalls(b, seed, browser.feed, served0, Rounds(scrolls)), home.at);
      attempt := Raised(home.at);
      return Raised(home.at), attempt;
    }
    ghost var log1 := browser.log;
    var links := CollectVideoLinks(scraper, seed, scrolls);
    RanThen(browser.faulty, log0, log1, browser.log, OpenHomeCalls(b),
            CollectCalls(b, seed, browser.feed, served0, Rounds(scrolls)), (), links);
    attempt := links;
    result := if links.Raised? then Raised(links.at) else Returned(Respond(links.value, setting));
  }

  /** In the log a crawl leaves, the calls that release the browser are exactly those after the end of the `try` block. */
  lemma ReleasedOnlyAtEnd(b: Backend, seed: Option<string>, feed: seq<seq<Href>>, from: nat, n: nat,
                          faulty: set<nat>, log0: seq<Call>, log: seq<Call>, cut: nat, attempt: Outcome<seq<string>>)
    requires |log0| <= cut <= |log|
    requires Ran(faulty, log0, log[..cut], MainCalls(b, seed, feed, from, n), attempt)
    requires log[cut..] == ShutdownCalls(b, cut !in faulty)
    ensures forall k :: |log0| <= k < |log| ==> (log[k].IsTeardown() <==> cut <= k)
  {
    NoTeardownBeforeShutdown(b, seed, feed, from, n);
    ShutdownReleases(b, cut !in faulty);
    TeardownAfterCut(faulty, log0, log, cut, MainCalls(b, seed, feed, from, n), ShutdownCalls(b, cut !in faulty), attempt);
  }

  /** The last call of a crawl always stops the driver, whether or not anything raised. */
  lemma DriverStoppedLast(b: Backend, log: seq<Call>, cut: nat, firstClosed: bool)
    requires cut <= |log|
    requires log[cut..] == ShutdownCalls(b, firstClosed)
    ensures |log| > cut
    ensures log[|log| - 1] == (if b == Playwright then StopPlaywright else Quit)
  {
    var down := ShutdownCalls(b, firstClosed);
    ShutdownReleases(b, firstClosed);
    assert log[|log| - 1] == down[|down| - 1];
  }

  /** A page listing one video link twice and one other link. */
  const ScenarioPage: seq<Href> := [Some("a/video/1"), Some("b/other"), Some("a/video/1")]

  /** A page listing video link `v`, another link `o` and `v` again contributes `v` alone. */
  lemma OneLinkPage(page: seq<Href>, v: string, o: string)
    requires page == [Some(v), Some(o), Some(v)]
    requires IsVideoLink(Some(v)) && !IsVideoLink(Some(o))
    ensures Accepted(page) == {v}
  {
    forall x
      ensures x in Accepted(page) <==> x == v
    {
      AcceptedMembers(page, x);
    }
  }

  /** The page contributes its video link and not the other one. */
  lemma ScenarioPageLinks()
    ensures Accepted(ScenarioPage) == {"a/video/1"}
  {
    RejectsOtherPage();
    AcceptsRelativeVideoPath();
    OneLinkPage(ScenarioPage, "a/video/1", "b/other");
  }

  /**
   * A request with no seed URL and two scroll passes, on either back end and a
   * browser that never fails and shows, on every query, a page listing video
   * link `v`, another link `o` and `v` again, is answered with `v` alone, a
   * count of 1 and the configured back-end name.
   */
  method TwoPassScenario(v: string, o: string, setting: string) returns (r: Outcome<CrawlResponse>)
    requires IsVideoLink(Some(v)) && !IsVideoLink(Some(o))
    ensures r == Returned(CrawlResponse(1, [v], setting))
  {
    var page := [Some(v), Some(o), Some(v)];
    var browser := new Driver([page, page], {});
    ghost var cut: nat, attempt: Outcome<seq<string>>;
    r, cut, attempt := CrawlLinks(CrawlRequest(None, 2), setting, url => url, browser);
    OneLinkPage(page, v, o);
    RepeatedPageOnce(page, 2);
    assert seq(2, _ => page) == [page, page];
    var links := r.value.links;
    assert v in links;
    assert links == [links[0]];
  }
}
