/**
 * scraper/playwright_impl.py: the Playwright back end. Navigation settles with
 * fixed waits, and every scroll is followed by a paced wait that cycles through
 * 1200, 1500 and 1800 ms.
 */
module PlaywrightImpl {
  import opened Wrappers
  import opened Classifier
  import opened Browser
  import opened Links

  const HomeSettleMs := 2500
  const SeedSettleMs := 1500

  /** The wait after scroll number `i` (counting from 0). */
  function PaceMs(i: nat): (ms: int)
    ensures 1200 <= ms <= 1800
    ensures ms % 300 == 0
  {
    1200 + (i % 3) * 300
  }

  /** The pacing repeats with period 3 and takes each of its three values in turn. */
  lemma PaceCycle(i: nat)
    ensures PaceMs(i + 3) == PaceMs(i)
    ensures PaceMs(3 * i) == 1200 && PaceMs(3 * i + 1) == 1500 && PaceMs(3 * i + 2) == 1800
  {
  }

  /** `open_home`: go to the landing page, then let it settle. */
  function OpenHomeCalls(): seq<Call>
  {
    [Navigate(Home), Wait(HomeSettleMs)]
  }

  /** The calls made for a seed URL: only a present, non-empty one is visited. */
  function SeedCalls(seed: Option<string>): seq<Call>
  {
    if Present(seed) then [Navigate(seed.value), Wait(SeedSettleMs)] else []
  }

  /** Iteration `i` of the scroll loop. */
  function RoundCalls(i: nat): seq<Call>
  {
    [QueryAnchors, Scroll, Wait(PaceMs(i))]
  }

  /** The first `n` iterations of the scroll loop. */
  function LoopCalls(n: nat): seq<Call>
  {
    if n == 0 then [] else LoopCalls(n - 1) + RoundCalls(n - 1)
  }

  /** `collect_video_links(seed, scrolls)` when no call raises. */
  function CollectCalls(seed: Option<string>, n: nat): seq<Call>
  {
    SeedCalls(seed) + LoopCalls(n)
  }

  /** `shutdown`: the context is closed, the browser too if that worked, and the driver is always stopped. */
  function ShutdownCalls(contextClosed: bool): seq<Call>
  {
    if contextClosed then [CloseContext, CloseBrowser, StopPlaywright] else [CloseContext, StopPlaywright]
  }

  /** Iteration `i` occupies positions 3i .. 3i+2 of the loop's calls: a query, a scroll and its paced wait. */
  lemma {:induction false} LoopShape(n: nat, i: nat)
    requires i < n
    ensures |LoopCalls(n)| == 3 * n
    ensures LoopCalls(n)[3 * i..3 * i + 3] == RoundCalls(i)
  {
    if i < n - 1 {
      LoopShape(n - 1, i);
      assert LoopCalls(n)[..3 * (n - 1)] == LoopCalls(n - 1);
    }
    LoopLength(n);
  }

  lemma {:induction false} LoopLength(n: nat)
    ensures |LoopCalls(n)| == 3 * n
  {
    if n > 0 {
      LoopLength(n - 1);
    }
  }

  /** The loop reads the page `n` times and scrolls `n` times. */
  lemma {:induction false} LoopCounts(n: nat)
    ensures multiset(LoopCalls(n))[QueryAnchors] == n
    ensures multiset(LoopCalls(n))[Scroll] == n
  {
    if n > 0 {
      LoopCounts(n - 1);
    }
  }

  /** Besides reading the page and scrolling, the loop only waits. */
  lemma {:induction false} LoopKinds(n: nat)
    ensures forall c :: c in LoopCalls(n) ==> c == QueryAnchors || c == Scroll || c.Wait?
  {
    if n > 0 {
      LoopKinds(n - 1);
    }
  }

  /** Opening the home page and collecting only navigate, wait, query and scroll; they never release the browser. */
  lemma NoTeardown(seed: Option<string>, n: nat)
    ensures forall c :: c in OpenHomeCalls() + CollectCalls(seed, n) ==> !c.IsTeardown()
  {
    LoopKinds(n);
    var early := OpenHomeCalls() + SeedCalls(seed);
    assert OpenHomeCalls() + CollectCalls(seed, n) == early + LoopCalls(n);
    forall c | c in early + LoopCalls(n)
      ensures !c.IsTeardown()
    {
      if c in early {
        assert c.Navigate? || c.Wait?;
      }
    }
  }

  /** Fewer iterations make a prefix of the calls of more iterations. */
  lemma {:induction false} LoopPrefix(m: nat, n: nat)
    requires m <= n
    ensures LoopCalls(m) <= LoopCalls(n)
    decreases n - m
  {
    if m < n {
      LoopPrefix(m, n - 1);
      assert LoopCalls(n)[..|LoopCalls(n - 1)|] == LoopCalls(n - 1);
    }
  }

  /** The inner loop of `collect_video_links`: add every href of one query that the classifier accepts. */
  method AddLinks(results: set<string>, hrefs: seq<string>) returns (grown: set<string>)
    ensures grown == results + AcceptedText(hrefs)
  {
    grown := results;
    var j := 0;
    while j < |hrefs|
      invariant 0 <= j <= |hrefs|
      invariant grown == results + AcceptedText(hrefs[..j])
    {
      assert hrefs[..j + 1][..j] == hrefs[..j];
      if IsVideoLink(Some(hrefs[j])) {
        grown := grown + {hrefs[j]};
      }
      j := j + 1;
    }
    assert hrefs[..j] == hrefs;
  }

  class PlaywrightScraper {
    const browser: Driver

    constructor (browser: Driver)
      ensures this.browser == browser
    {
      this.browser := browser;
    }

    method OpenHome() returns (r: Outcome<()>)
      modifies browser
      ensures Ran(browser.faulty, old(browser.log), browser.log, OpenHomeCalls(), r)
      ensures browser.served == old(browser.served)
    {
      ghost var log0 := browser.log;
      r := browser.Perform(Navigate(Home));
      if r.Raised? {
        RanFailsAt<()>(browser.faulty, log0, [], Navigate(Home), OpenHomeCalls());
        return;
      }
      r := browser.Perform(Wait(HomeSettleMs));
      if r.Raised? {
        RanFailsAt<()>(browser.faulty, log0, [Navigate(Home)], Wait(HomeSettleMs), OpenHomeCalls());
      } else {
        RanAll(browser.faulty, log0, OpenHomeCalls(), ());
      }
    }

    method CollectVideoLinks(seedUrl: Option<string>, scrolls: int) returns (r: Outcome<seq<string>>)
      modifies browser
      ensures Ran(browser.faulty, old(browser.log), browser.log, CollectCalls(seedUrl, Rounds(scrolls)), r)
      ensures r.Returned? ==> Lists(r.value, Harvest(browser.feed, old(browser.served), Rounds(scrolls)))
      ensures r.Returned? ==> browser.served == old(browser.served) + Rounds(scrolls)
    {
      ghost var log0, faulty := browser.log, browser.faulty;
      ghost var plan := CollectCalls(seedUrl, Rounds(scrolls));
      var seed := VisitSeed(seedUrl);
      if seed.Raised? {
        RanStop<(), seq<string>>(faulty, log0, browser.log, SeedCalls(seedUrl), LoopCalls(Rounds(scrolls)), seed.at);
        return Raised(seed.at);
      }
      ghost var log1 := browser.log;
      var passes := ScrollPasses(scrolls);
      RanThen(faulty, log0, log1, browser.log, SeedCalls(seedUrl), LoopCalls(Rounds(scrolls)), (), passes);
      if passes.Raised? {
        RanAbort<set<string>, seq<string>>(faulty, log0, browser.log, plan, plan, passes.at);
        return Raised(passes.at);
      }
      var links := SetToList(passes.value);
      RanOutcome(faulty, log0, browser.log, plan, passes);
      RanAll(faulty, log0, plan, links);
      r := Returned(links);
    }

    /** Open the seed URL, when one is given, and let it settle. */
    method VisitSeed(seedUrl: Option<string>) returns (r: Outcome<()>)
      modifies browser
      ensures Ran(browser.faulty, old(browser.log), browser.log, SeedCalls(seedUrl), r)
      ensures browser.served == old(browser.served)
    {
      ghost var log0 := browser.log;
      if !Present(seedUrl) {
        RanAll(browser.faulty, log0, [], ());
        return Returned(());
      }
      var nav := browser.Perform(Navigate(seedUrl.value));
      if nav.Raised? {
        RanFailsAt<()>(browser.faulty, log0, [], Navigate(seedUrl.value), SeedCalls(seedUrl));
        return nav;
      }
      r := browser.Perform(Wait(SeedSettleMs));
      if r.Raised? {
        RanFailsAt<()>(browser.faulty, log0, [Navigate(seedUrl.value)], Wait(SeedSettleMs), SeedCalls(seedUrl));
      } else {
        RanAll(browser.faulty, log0, SeedCalls(seedUrl), ());
      }
    }

    /** The scroll loop: `scrolls` passes, gathering the accepted links of every query into a set. */
    method ScrollPasses(scrolls: int) returns (r: Outcome<set<string>>)
      modifies browser
      ensures Ran(browser.faulty, old(browser.log), browser.log, LoopCalls(Rounds(scrolls)), r)
      ensures r.Returned? ==> r.value == Harvest(browser.feed, old(browser.served), Rounds(scrolls))
      ensures r.Returned? ==> browser.served == old(browser.served) + Rounds(scrolls)
    {
      ghost var log0, served0, faulty := browser.log, browser.served, browser.faulty;
      ghost var plan := LoopCalls(Rounds(scrolls));
      var results: set<string> := {};
      var i := 0;
      while i < scrolls
        invariant 0 <= i <= Rounds(scrolls)
        invariant browser.log == log0 + LoopCalls(i)
        invariant Clean(faulty, |log0|, |browser.log|)
        invariant browser.served == served0 + i
        invariant results == Harvest(browser.feed, served0, i)
      {
        ghost var logI := browser.log;
        LoopPrefix(i + 1, Rounds(scrolls));
        RanAll(faulty, log0, LoopCalls(i), ());
        var round := Round(i, results);
        RanThen(faulty, log0, logI, browser.log, LoopCalls(i), RoundCalls(i), (), round);
        if round.Raised? {
          RanAbort<set<string>, set<string>>(faulty, log0, browser.log, LoopCalls(i + 1), plan, round.at);
          return round;
        }
        results := round.value;
        i := i + 1;
      }
      RanAll(faulty, log0, plan, results);
      r := Returned(results);
    }

    /**
     * One pass of the scroll loop: read the page's hrefs, keep the video links,
     * scroll one screen and wait the paced delay for pass `i`.
     */
    method Round(i: nat, results: set<string>) returns (r: Outcome<set<string>>)
      modifies browser
      ensures Ran(browser.faulty, old(browser.log), browser.log, RoundCalls(i), r)
      ensures r.Returned? ==> r.value == results + Accepted(SnapshotAt(browser.feed, old(browser.served)))
      ensures r.Returned? ==> browser.served == old(browser.served) + 1
    {
      ghost var log0, served0 := browser.log, browser.served;
      var query := browser.EvalHrefs();
      if query.Raised? {
        RanFailsAt<set<string>>(browser.faulty, log0, [], QueryAnchors, RoundCalls(i));
        return Raised(query.at);
      }
      SameLinksFromPage(SnapshotAt(browser.feed, served0));
      var grown := AddLinks(results, query.value);
      var scroll := browser.Perform(Scroll);
      if scroll.Raised? {
        RanFailsAt<set<string>>(browser.faulty, log0, [QueryAnchors], Scroll, RoundCalls(i));
        return Raised(scroll.at);
      }
      var pace := browser.Perform(Wait(PaceMs(i)));
      if pace.Raised? {
        RanFailsAt<set<string>>(browser.faulty, log0, [QueryAnchors, Scroll], Wait(PaceMs(i)), RoundCalls(i));
        return Raised(pace.at);
      }
      RanAll(browser.faulty, log0, RoundCalls(i), grown);
      r := Returned(grown);
    }

    method Shutdown() returns (r: Outcome<()>)
      modifies browser
      ensures browser.log == old(browser.log) + ShutdownCalls(|old(browser.log)| !in browser.faulty)
      ensures browser.served == old(browser.served)
      ensures r.Returned? <==> Clean(browser.faulty, |old(browser.log)|, |browser.log|)
      ensures r.Raised? ==> |old(browser.log)| <= r.at < |browser.log| && r.at in browser.faulty
      ensures |browser.log| - 1 in browser.faulty ==> r == Raised(|browser.log| - 1)
    {
      var failure := browser.Perform(CloseContext);
      if failure.Returned? {
        failure := browser.Perform(CloseBrowser);
      }
      var stop := browser.Perform(StopPlaywright);
      r := if stop.Raised? then stop else failure;
    }
  }
}
