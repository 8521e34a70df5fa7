# Douyin video-link crawler, modelled in Dafny

The `tool_download_video_douyin` service answers a crawl request with the
video links it finds on Douyin pages. It builds a browser scraper, either
Playwright or Selenium as the `TOOL_DOUYIN_BACKEND` setting says. It opens
the landing page and, if the request has one, the seed URL. It then runs a
fixed number of passes; each pass reads the `href` of every anchor on the
page, keeps the hrefs that look like video links, and scrolls one screen.
The answer is the de-duplicated links, their number and the backend name.
The scraper is shut down on every path out of the request.

The model has these modules, one per source file plus shared ones:

- `Classifier` (`utils/selectors.py`): `is_video_link`, a case-insensitive
  test for the markers `/video/`, `douyin.com/video` and `share`.
  - `Contains`/`StartsWith` model Python's substring test.
  - They are proved equal to "the pattern occurs at some index".
- `Browser`: the simulated browser both libraries stand for. `Driver` is a
  class:
  - its `feed` is the href snapshot each successive anchor query sees;
  - its `faulty` set holds the positions in the call log where a call raises;
  - its `log` records every call.

  Python's exceptions are the outcome `Raised(at)`. `Ran(faulty, log0, log,
  plan, r)` says the calls of `plan` were made in order and the run stopped
  at the first call that raised. Lemmas compose such runs.
- `Links`: what a run collects. `Harvest` is the union, over the snapshots
  served, of the accepted hrefs. `SetToList` models `list(set)`: every
  element once, in an order left open.
- `PlaywrightImpl` (`scraper/playwright_impl.py`) and `SeleniumImpl`
  (`scraper/selenium_impl.py`) are the two back ends.
  - Each is a class over a `Driver` with `OpenHome`, `CollectVideoLinks` and
    `Shutdown`.
  - Each method is proved against its call plan, the exact sequence of
    browser calls it makes when nothing raises.
  - Each `CollectVideoLinks` is also proved against `Harvest`.
- `Scrapers` (`scraper/__init__.py`): `get_scraper` and the dispatch over the
  two back ends.
- `Service` (`services/service.py`): `crawl_links` with its `try ...
  finally`.

The response's `backend` field follows the code: it is the raw setting
string, not lower-cased. So a setting of `"SELENIUM"` runs Selenium and
reports `"SELENIUM"`, and an unknown value such as `"chrome"` runs Playwright
and reports `"chrome"`. `Service.CrawlLinks` states this: the response echoes
the raw setting, not the variant that was built.

The request and response records of `models/models.py` are the datatypes
`Service.CrawlRequest` (no seed URL and 8 passes by default) and
`Service.CrawlResponse`.

## Model

| member | source | states |
|---|---|---|
| Classifier.IsVideoLink | python-services/tool_download_video_douyin/utils/selectors.py:1-7 | a missing or empty href is never accepted |
| Classifier.IsVideoLinkIff | python-services/tool_download_video_douyin/utils/selectors.py:1-7 | an href is accepted exactly when `/video/`, `douyin.com/video` or `share` occurs at some index of its lower-cased form (a missing href counting as "") |
| Classifier.ToLower | python-services/tool_download_video_douyin/utils/selectors.py:2 | `.lower()` keeps the length of the string |
| Classifier.Normalized | python-services/tool_download_video_douyin/utils/selectors.py:2 | `(h or "").lower()` is empty exactly when the href is missing or empty, and otherwise has the href's length |
| Classifier.Contains | python-services/tool_download_video_douyin/utils/selectors.py:4-6 | the substring test `pat in s` can only succeed when the pattern is no longer than the string |
| Classifier.StartsWith | python-services/tool_download_video_douyin/utils/selectors.py:4-6 | a prefix match needs a pattern no longer than the string |
| Classifier.ContainsIff | python-services/tool_download_video_douyin/utils/selectors.py:4-6 | the left-to-right substring search succeeds exactly when the pattern occurs at some index |
| Classifier.StartsWithIff | python-services/tool_download_video_douyin/utils/selectors.py:4-6 | comparing character by character agrees with comparing the leading slice of the same length |
| Classifier.ToLowerAt | python-services/tool_download_video_douyin/utils/selectors.py:2 | lower-casing maps each position to the lower-cased character there |
| Classifier.LowerIdempotent | python-services/tool_download_video_douyin/utils/selectors.py:2 | lower-casing twice is the same as lower-casing once |
| Classifier.IgnoresCase | python-services/tool_download_video_douyin/utils/selectors.py:2-7 | an href and its lower-cased form get the same answer |
| Classifier.AcceptsVideoPath | python-services/tool_download_video_douyin/utils/selectors.py:4 | an href whose lower-cased form holds `/video/` anywhere is accepted |
| Classifier.AcceptsVideoHost | python-services/tool_download_video_douyin/utils/selectors.py:5 | an href whose lower-cased form holds `douyin.com/video` anywhere is accepted |
| Classifier.AcceptsShare | python-services/tool_download_video_douyin/utils/selectors.py:6 | an href whose lower-cased form holds `share` anywhere is accepted |
| Classifier.AcceptsCanonicalVideoPage | python-services/tool_download_video_douyin/utils/selectors.py:4 | `https://www.douyin.com/video/123` is accepted |
| Classifier.AcceptsHostWithoutSlash | python-services/tool_download_video_douyin/utils/selectors.py:5 | `https://www.DOUYIN.com/videos` is accepted: the host marker needs no trailing slash and case does not matter |
| Classifier.AcceptsRelativeVideoPath | python-services/tool_download_video_douyin/utils/selectors.py:4 | the relative `a/video/1` is accepted |
| Classifier.RejectsMissing | python-services/tool_download_video_douyin/utils/selectors.py:2 | `None` and `""` are rejected |
| Classifier.RejectsWithoutMarkerLetters | python-services/tool_download_video_douyin/utils/selectors.py:3-7 | an href with no `v` and no `a` in any case is rejected, since every marker holds one of them |
| Classifier.RejectsOtherPage | python-services/tool_download_video_douyin/utils/selectors.py:3-7 | `b/other` is rejected |
| Browser.TruthyHrefs | python-services/tool_download_video_douyin/scraper/playwright_impl.py:34-36 | the in-page `filter(Boolean)` keeps exactly the present, non-empty hrefs and never lengthens the list |
| Browser.Driver.Perform | python-services/tool_download_video_douyin/scraper/playwright_impl.py:24-25 | a navigation, wait, scroll or close call is logged and raises exactly when its log position is faulty |
| Browser.Driver.EvalHrefs | python-services/tool_download_video_douyin/scraper/playwright_impl.py:34-36 | `eval_on_selector_all` is one logged call that returns the present hrefs of the next snapshot |
| Browser.Driver.FindAnchors | python-services/tool_download_video_douyin/scraper/selenium_impl.py:24 | `find_elements` is one logged call that exposes the anchors of the next snapshot |
| Browser.Driver.GetHref | python-services/tool_download_video_douyin/scraper/selenium_impl.py:26 | `get_attribute("href")` is one logged call that returns that anchor's href, possibly `None` |
| Browser.TeardownAfterCut | python-services/tool_download_video_douyin/services/service.py:8-14 | when only the cleanup calls release resources, the releasing calls in the log are exactly those made after the `try` block ended |
| Links.Rounds | python-services/tool_download_video_douyin/scraper/playwright_impl.py:33 | `range(scrolls)` runs no pass exactly when `scrolls <= 0`, and otherwise `scrolls` passes |
| Links.AcceptedMembers | python-services/tool_download_video_douyin/scraper/selenium_impl.py:25-28 | a link comes from one snapshot exactly when that snapshot holds it and the classifier accepts it |
| Links.SameLinksFromPage | python-services/tool_download_video_douyin/scraper/playwright_impl.py:34-39 | filtering hrefs in the page and then classifying yields the same set as Selenium's `href and is_video_link(href)` guard |
| Links.HarvestMembers | python-services/tool_download_video_douyin/scraper/playwright_impl.py:32-39 | a link is collected exactly when it is accepted and some snapshot of the run holds it |
| Links.HarvestGrows | python-services/tool_download_video_douyin/scraper/playwright_impl.py:32-39 | the collected set only grows from pass to pass |
| Links.RepeatedPageOnce | python-services/tool_download_video_douyin/scraper/playwright_impl.py:32-39 | passes over an unchanged page collect that page's links once: duplicates are dropped |
| Links.SetToList | python-services/tool_download_video_douyin/scraper/playwright_impl.py:42 | `list(results)` lists every element of the set exactly once |
| PlaywrightImpl.PaceMs | python-services/tool_download_video_douyin/scraper/playwright_impl.py:41 | the wait after a scroll lies between 1200 and 1800 ms in steps of 300 |
| PlaywrightImpl.PaceCycle | python-services/tool_download_video_douyin/scraper/playwright_impl.py:41 | the pacing has period 3 and takes 1200, 1500 and 1800 ms in turn |
| PlaywrightImpl.LoopShape | python-services/tool_download_video_douyin/scraper/playwright_impl.py:33-41 | `n` passes make `3n` calls, pass `i` being a query, a scroll and the wait `PaceMs(i)` |
| PlaywrightImpl.LoopCounts | python-services/tool_download_video_douyin/scraper/playwright_impl.py:33-41 | `n` passes query the page `n` times and scroll `n` times |
| PlaywrightImpl.LoopKinds | python-services/tool_download_video_douyin/scraper/playwright_impl.py:33-41 | the loop only queries, scrolls and waits |
| PlaywrightImpl.NoTeardown | python-services/tool_download_video_douyin/scraper/playwright_impl.py:23-42 | opening and collecting never close the context, the browser or the driver |
| PlaywrightImpl.AddLinks | python-services/tool_download_video_douyin/scraper/playwright_impl.py:37-39 | the inner loop adds exactly the accepted hrefs of one query to the set |
| PlaywrightImpl.PlaywrightScraper.OpenHome | python-services/tool_download_video_douyin/scraper/playwright_impl.py:23-25 | navigates home, then waits 2500 ms, stopping at the first call that raises |
| PlaywrightImpl.PlaywrightScraper.VisitSeed | python-services/tool_download_video_douyin/scraper/playwright_impl.py:28-30 | a present seed URL is opened and followed by a 1500 ms wait; a missing or empty one makes no call |
| PlaywrightImpl.PlaywrightScraper.Round | python-services/tool_download_video_douyin/scraper/playwright_impl.py:34-41 | one pass queries, adds the snapshot's accepted links, scrolls and waits `PaceMs(i)` |
| PlaywrightImpl.PlaywrightScraper.ScrollPasses | python-services/tool_download_video_douyin/scraper/playwright_impl.py:32-41 | `max(scrolls, 0)` passes collect the union of the accepted links of as many successive snapshots |
| PlaywrightImpl.PlaywrightScraper.CollectVideoLinks | python-services/tool_download_video_douyin/scraper/playwright_impl.py:27-42 | the seed calls, then the passes; on return, the result lists each collected link once and exactly `max(scrolls, 0)` snapshots were read; on an exception, the calls stop at the one that raised |
| PlaywrightImpl.PlaywrightScraper.Shutdown | python-services/tool_download_video_douyin/scraper/playwright_impl.py:44-49 | the context is closed, the browser only if that worked, and the driver is stopped in every case; an exception from stopping replaces an earlier one |
| SeleniumImpl.HrefReadsAt | python-services/tool_download_video_douyin/scraper/selenium_impl.py:25-26 | the `k`-th href read is of the `k`-th anchor found, and nothing else is read |
| SeleniumImpl.RoundCounts | python-services/tool_download_video_douyin/scraper/selenium_impl.py:24-29 | a pass finds the anchors once, reads one href per anchor and scrolls once |
| SeleniumImpl.NoWaits | python-services/tool_download_video_douyin/scraper/selenium_impl.py:19-30 | a Selenium collection never waits and never quits, whatever the pages show |
| SeleniumImpl.LoopKinds | python-services/tool_download_video_douyin/scraper/selenium_impl.py:23-29 | the loop only finds anchors, reads hrefs and scrolls |
| SeleniumImpl.LoopCounts | python-services/tool_download_video_douyin/scraper/selenium_impl.py:23-29 | `n` passes find anchors `n` times, scroll `n` times and make `2n` calls plus one per anchor found |
| SeleniumImpl.SeleniumScraper.OpenHome | python-services/tool_download_video_douyin/scraper/selenium_impl.py:16-17 | a single navigation to the landing page |
| SeleniumImpl.SeleniumScraper.VisitSeed | python-services/tool_download_video_douyin/scraper/selenium_impl.py:20-21 | a present seed URL is opened with no wait; a missing or empty one makes no call |
| SeleniumImpl.SeleniumScraper.ReadLinks | python-services/tool_download_video_douyin/scraper/selenium_impl.py:25-28 | reads each anchor's href in order and adds it when present and accepted, stopping at the first read that raises |
| SeleniumImpl.SeleniumScraper.Round | python-services/tool_download_video_douyin/scraper/selenium_impl.py:24-29 | one pass finds the anchors, adds the snapshot's accepted links and scrolls |
| SeleniumImpl.SeleniumScraper.ScrollPasses | python-services/tool_download_video_douyin/scraper/selenium_impl.py:22-29 | `max(scrolls, 0)` passes collect the union of the accepted links of as many successive snapshots |
| SeleniumImpl.SeleniumScraper.CollectVideoLinks | python-services/tool_download_video_douyin/scraper/selenium_impl.py:19-30 | the seed call, then the passes; on return, the result lists each collected link once; on an exception, the calls stop at the one that raised |
| SeleniumImpl.SeleniumScraper.Shutdown | python-services/tool_download_video_douyin/scraper/selenium_impl.py:32-33 | a single `quit`, which raises exactly when that call is faulty |
| Scrapers.SelectBackend | python-services/tool_download_video_douyin/scraper/__init__.py:6-7 | only a setting of exactly eight characters can select Selenium: nothing is trimmed |
| Scrapers.SelectBackendIff | python-services/tool_download_video_douyin/scraper/__init__.py:5-12 | Selenium is chosen exactly when the setting spells `selenium` in any mix of cases with nothing around it; anything else gives Playwright |
| Scrapers.FallsBackToPlaywright | python-services/tool_download_video_douyin/scraper/__init__.py:6-12 | the default `playwright`, the empty string and ` selenium` with a leading space all select Playwright |
| Scrapers.UpperCaseSelectsSelenium | python-services/tool_download_video_douyin/scraper/__init__.py:6-9 | `SELENIUM` selects Selenium |
| Scrapers.GetScraper | python-services/tool_download_video_douyin/scraper/__init__.py:5-12 | the scraper built is of the selected back end and drives the given browser |
| Scrapers.NoTeardownBeforeShutdown | python-services/tool_download_video_douyin/services/service.py:9-11 | on either back end, opening and collecting never release the browser |
| Scrapers.ShutdownReleases | python-services/tool_download_video_douyin/services/service.py:13-14 | on either back end, `shutdown` only releases, and its last call stops the driver |
| Scrapers.OpenHome | python-services/tool_download_video_douyin/services/service.py:9 | dispatches `open_home` to the back end the scraper is |
| Scrapers.CollectVideoLinks | python-services/tool_download_video_douyin/services/service.py:11 | dispatches `collect_video_links`; on return the links list the back end's harvest once each |
| Scrapers.Shutdown | python-services/tool_download_video_douyin/services/service.py:14 | dispatches `shutdown`; it raises exactly when one of its calls raised, and a failing last call decides the exception |
| Service.DefaultRequestPlan | python-services/tool_download_video_douyin/models/models.py:4-6 | the default request visits no seed and runs 8 passes |
| Service.SeedFor | python-services/tool_download_video_douyin/services/service.py:10 | a seed is passed on exactly when the request has a non-empty seed URL, and it is `normalize_url` of that URL |
| Service.Respond | python-services/tool_download_video_douyin/models/models.py:8-11 | the success response's `count` is the number of its links, and `backend` is the setting as given |
| Service.TryBlock | python-services/tool_download_video_douyin/services/service.py:8-12 | opening and collecting run in order and stop at the first exception; on success the response is built from the links, which list the harvest once each |
| Service.CrawlLinks | python-services/tool_download_video_douyin/services/service.py:6-14 | the home page and the collection run as a `try` block that stops at the first exception; then `shutdown` runs exactly once. On success the response holds `count = len(links)`, links that list each harvested video link once, and the raw setting as `backend`. An exception from `shutdown` replaces the `try` block's, and when the very last call raises, its exception is the one propagated; otherwise the `try` block's exception propagates |
| Service.ReleasedOnlyAtEnd | python-services/tool_download_video_douyin/services/service.py:8-14 | in the log a crawl leaves, the calls that release the browser are exactly those after the `try` block, whether or not it raised |
| Service.DriverStoppedLast | python-services/tool_download_video_douyin/services/service.py:13-14 | the last call of every crawl stops the driver |
| Service.OneLinkPage | python-services/tool_download_video_douyin/scraper/selenium_impl.py:25-28 | a page listing a video link, another link and the video link again contributes the video link alone |
| Service.ScenarioPageLinks | python-services/tool_download_video_douyin/utils/selectors.py:3-7 | the page `a/video/1`, `b/other`, `a/video/1` contributes `a/video/1` alone |
| Service.TwoPassScenario | python-services/tool_download_video_douyin/services/service.py:6-14 | two passes over such a page, on either back end with no failure, answer `count = 1`, `links = [v]` and the setting as `backend` |

## Left out

- Launching the browsers is left out. This covers `PlaywrightScraper.__init__` and `SeleniumScraper.__init__`: starting Playwright or undetected-chromedriver, the headless flag, the mobile user agent and the viewport. The constructors here only attach a `Driver`. A failure while constructing happens before the `try` block of `crawl_links` and is not modelled.
- What pages show is an input, not something the model computes: the `feed` of href snapshots, one per anchor query. Past the end of the feed, a page has no anchors.
- Exceptions are modelled by position only. The set of faulty log positions decides which calls raise; their types and messages are not modelled.
- A stale-element error in Selenium is one such raising call.
- `wait_until="networkidle"` is folded into the navigation call.
- Waits are recorded with their durations; no time passes.
- Playwright's in-page script `els.map(e => e.href).filter(Boolean)` is modelled by `TruthyHrefs` over the snapshot. The resolution of relative hrefs to absolute URLs by the DOM is not modelled; a snapshot holds hrefs as the page script would return them.
- `list(results)` returns the links in an order the model leaves open. Only their membership, distinctness and number are stated.
- `str.lower()` is modelled for ASCII letters only; Unicode case mapping is not modelled.
- `normalize_url` is a parameter of `CrawlLinks`, because `utils/parsers.py` is not part of this model. It is assumed not to raise.
- The `HttpUrl` validation of `seed_url` is not modelled: a seed URL is any string, and `if req.seed_url` is modelled as "present and non-empty".
- The setting `TOOL_DOUYIN_BACKEND` is a parameter, read once and used both for the choice and for the response. The code reads it twice, in `get_scraper` and when building the response. Nothing in the code shown writes it between the two reads, but the settings object is not frozen. Its default `"playwright"` is `Scrapers.DefaultBackend`. Loading settings from the environment is left out.
- Service.CrawlLinks: does not model a change to the setting between its two reads. Such a change would make `backend` in the response disagree with the back end actually built.
- `ScraperProtocol` in `scraper/base.py` is not part of this model. The `Scrapers.Scraper` datatype over the two back ends stands for it.
- The loop bodies of both `collect_video_links` are split into helper methods with the same behaviour: `VisitSeed`, `ScrollPasses`, `Round`, `AddLinks` and `ReadLinks`. So is the `try` block of `crawl_links`, as `Service.TryBlock`.
- The Laravel PHP files and the rest of the platform are outside this component.
