/**
 * scraper/selenium_impl.py: the Selenium back end. It never waits; every
 * query finds the page's anchors and then reads the `href` of each one with
 * its own driver call, keeping those that are present and look like videos.
 */
module SeleniumImpl {
  import opened Wrappers
  import opened Classifier
  import opened Browser
  import opened Links

  /** `open_home`: go to the landing page. */
  function OpenHomeCalls(): seq<Call>
  {
    [Navigate(Home)]
  }

  /** The calls made for a seed URL: only a present, non-empty one is visited. */
  function SeedCalls(seed: Option<string>): seq<Call>
  {
    if Present(seed) then [Navigate(seed.value)] else []
  }

  /** Reading the `href` of each of `count` anchors, in page order. */
  function HrefReads(count: nat): (calls: seq<Call>)
    ensures |calls| == count
  {
    if count == 0 then [] else HrefReads(count - 1) + [ReadHref(count - 1)]
  }

  /** The `k`-th read is of the `k`-th anchor, and nothing but hrefs is read. */
  lemma {:induction false} HrefReadsAt(count: nat)
    ensures forall k :: 0 <= k < count ==> HrefReads(count)[k] == ReadHref(k)
    ensures forall c :: c in HrefReads(count) ==> c.ReadHref?
  {
    if count > 0 {
      HrefReadsAt(count - 1);
    }
  }

  /** One iteration of the scroll loop over a page with `count` anchors. */
  function RoundCalls(count: nat): seq<Call>
  {
    [QueryAnchors] + HrefReads(count) + [Scroll]
  }

  /** The first `n` iterations of the scroll loop, starting at query number `from`. */
  function LoopCalls(feed: seq<seq<Href>>, from: nat, n: nat): seq<Call>
  {
    if n == 0 then [] else LoopCalls(feed, from, n - 1) + RoundCalls(|SnapshotAt(feed, from + n - 1)|)
  }

  /** `collect_video_links(seed, scrolls)` when no call raises. */
  function CollectCalls(seed: Option<string>, feed: seq<seq<Href>>, from: nat, n: nat): seq<Call>
  {
    SeedCalls(seed) + LoopCalls(feed, from, n)
  }

  /** `shutdown`: quit the driver. */
  function ShutdownCalls(): seq<Call>
  {
    [Quit]
  }

  /** Fewer reads make a prefix of more reads. */
  lemma {:induction false} HrefReadsPrefix(m: nat, n: nat)
    requires m <= n
    ensures HrefReads(m) <= HrefReads(n)
    decreases n - m
  {
    if m < n {
      HrefReadsPrefix(m, n - 1);
      var before := HrefReads(n - 1);
      assert (before + [ReadHref(n - 1)])[..|before|] == before;
    }
  }

  /** One iteration finds the anchors once, scrolls once, and reads `count` hrefs, nothing else. */
  lemma RoundCounts(count: nat)
    ensures multiset(RoundCalls(count))[QueryAnchors] == 1
    ensures multiset(RoundCalls(count))[Scroll] == 1
    ensures |RoundCalls(count)| == count + 2
    ensures forall c :: c in RoundCalls(count) ==> c == QueryAnchors || c == Scroll || c.ReadHref?
  {
    HrefReadsAt(count);
    assert multiset(HrefReads(count))[QueryAnchors] == 0;
    assert multiset(HrefReads(count))[Scroll] == 0;
  }

  /** Unlike the Playwright back end, a collection never waits and never tears down, whatever the pages show. */
  lemma {:induction false} NoWaits(seed: Option<string>, feed: seq<seq<Href>>, from: nat, n: nat)
    ensures forall c :: c in CollectCalls(seed, feed, from, n) ==> !c.Wait? && !c.IsTeardown()
  {
    LoopKinds(feed, from, n);
  }

  lemma {:induction false} LoopKinds(feed: seq<seq<Href>>, from: nat, n: nat)
    ensures forall c :: c in LoopCalls(feed, from, n) ==> c == QueryAnchors || c == Scroll || c.ReadHref?
  {
    if n > 0 {
      LoopKinds(feed, from, n - 1);
      RoundCounts(|SnapshotAt(feed, from + n - 1)|);
    }
  }

  /** The loop finds the anchors `n` times, scrolls `n` times, and reads one href per anchor found. */
  lemma {:induction false} LoopCounts(feed: seq<seq<Href>>, from: nat, n: nat)
    ensures multiset(LoopCalls(feed, from, n))[QueryAnchors] == n
    ensures multiset(LoopCalls(feed, from, n))[Scroll] == n
    ensures |LoopCalls(feed, from, n)| == 2 * n + AnchorTotal(feed, from, n)
  {
    if n > 0 {
      LoopCounts(feed, from, n - 1);
      RoundCounts(|SnapshotAt(feed, from + n - 1)|);
    }
  }

  /** How many anchors the `n` snapshots from query number `from` on hold in total. */
  function AnchorTotal(feed: seq<seq<Href>>, from: nat, n: nat): nat
  {
    if n == 0 then 0 else AnchorTotal(feed, from, n - 1) + |SnapshotAt(feed, from + n - 1)|
  }

  /** Fewer iterations make a prefix of the calls of more iterations. */
  lemma {:induction false} LoopPrefix(feed: seq<seq<Href>>, from: nat, m: nat, n: nat)
    requires m <= n
    ensures LoopCalls(feed, from, m) <= LoopCalls(feed, from, n)
    decreases n - m
  {
    if m < n {
      LoopPrefix(feed, from, m, n - 1);
      var before := LoopCalls(feed, from, n - 1);
      var round := RoundCalls(|SnapshotAt(feed, from + n - 1)|);
      assert (before + round)[..|before|] == before;
    }
  }

  class SeleniumScraper {
    const browser: Driver

    constructor (browser: Driver)
      ensures this.browser == browser
    {
      this.browser := browser;
    }

    method OpenHome() returns (r: Outcome<()>)
      modifies browser
      ensures Ran(browser.faulty, old(browser.log), browser.log, OpenHomeCalls(), r)
      ensures browser.served == old(browser.served)
    {
      ghost var log0 := browser.log;
      r := browser.Perform(Navigate(Home));
      if r.Raised? {
        RanFailsAt<()>(browser.faulty, log0, [], Navigate(Home), OpenHomeCalls());
      } else {
        RanAll(browser.faulty, log0, OpenHomeCalls(), ());
      }
    }

    method CollectVideoLinks(seedUrl: Option<string>, scrolls: int) returns (r: Outcome<seq<string>>)
      modifies browser
      ensures Ran(browser.faulty, old(browser.log), browser.log,
                  CollectCalls(seedUrl, browser.feed, old(browser.served), Rounds(scrolls)), r)
      ensures r.Returned? ==> Lists(r.value, Harvest(browser.feed, old(browser.served), Rounds(scrolls)))
      ensures r.Returned? ==> browser.served == old(browser.served) + Rounds(scrolls)
    {
      ghost var log0, faulty := browser.log, browser.faulty;
      ghost var loop := LoopCalls(browser.feed, browser.served, Rounds(scrolls));
      ghost var plan := CollectCalls(seedUrl, browser.feed, browser.served, Rounds(scrolls));
      var seed := VisitSeed(seedUrl);
      if seed.Raised? {
        RanStop<(), seq<string>>(faulty, log0, browser.log, SeedCalls(seedUrl), loop, seed.at);
        return Raised(seed.at);
      }
      ghost var log1 := browser.log;
      var passes := ScrollPasses(scrolls);
      RanThen(faulty, log0, log1, browser.log, SeedCalls(seedUrl), loop, (), passes);
      if passes.Raised? {
        RanAbort<set<string>, seq<string>>(faulty, log0, browser.log, plan, plan, passes.at);
        return Raised(passes.at);
      }
      var links := SetToList(passes.value);
      RanOutcome(faulty, log0, browser.log, plan, passes);
      RanAll(faulty, log0, plan, links);
      r := Returned(links);
    }

    /** Open the seed URL, when one is given. */
    method VisitSeed(seedUrl: Option<string>) returns (r: Outcome<()>)
      modifies browser
      ensures Ran(browser.faulty, old(browser.log), browser.log, SeedCalls(seedUrl), r)
      ensures browser.served == old(browser.served)
    {
      ghost var log0 := browser.log;
      if !Present(seedUrl) {
        RanAll(browser.faulty, log0, [], ());
        return Returned(());
      }
      r := browser.Perform(Navigate(seedUrl.value));
      if r.Raised? {
        RanFailsAt<()>(browser.faulty, log0, [], Navigate(seedUrl.value), SeedCalls(seedUrl));
      } else {
        RanAll(browser.faulty, log0, SeedCalls(seedUrl), ());
      }
    }

    /** The scroll loop: `scrolls` passes, gathering the accepted links of every query into a set. */
    method ScrollPasses(scrolls: int) returns (r: Outcome<set<string>>)
      modifies browser
      ensures Ran(browser.faulty, old(browser.log), browser.log,
                  LoopCalls(browser.feed, old(browser.served), Rounds(scrolls)), r)
      ensures r.Returned? ==> r.value == Harvest(browser.feed, old(browser.served), Rounds(scrolls))
      ensures r.Returned? ==> browser.served == old(browser.served) + Rounds(scrolls)
    {
      ghost var log0, served0, faulty, feed := browser.log, browser.served, browser.faulty, browser.feed;
      ghost var plan := LoopCalls(feed, served0, Rounds(scrolls));
      var links: set<string> := {};
      var i := 0;
      while i < scrolls
        invariant 0 <= i <= Rounds(scrolls)
        invariant browser.log == log0 + LoopCalls(feed, served0, i)
        invariant Clean(faulty, |log0|, |browser.log|)
        invariant browser.served == served0 + i
        invariant links == Harvest(feed, served0, i)
      {
        ghost var logI := browser.log;
        LoopPrefix(feed, served0, i + 1, Rounds(scrolls));
        RanAll(faulty, log0, LoopCalls(feed, served0, i), ());
        var round := Round(links);
        RanThen(faulty, log0, logI, browser.log, LoopCalls(feed, served0, i), RoundCalls(|SnapshotAt(feed, served0 + i)|), (), round);
        if round.Raised? {
          RanAbort<set<string>, set<string>>(faulty, log0, browser.log, LoopCalls(feed, served0, i + 1), plan, round.at);
          return round;
        }
        links := round.value;
        i := i + 1;
      }
      RanAll(faulty, log0, plan, links);
      r := Returned(links);
    }

    /** One pass of the scroll loop: find the anchors, keep the accepted hrefs, scroll one screen. */
    method Round(links: set<string>) returns (r: Outcome<set<string>>)
      modifies browser
      ensures Ran(browser.faulty, old(browser.log), browser.log,
                  RoundCalls(|SnapshotAt(browser.feed, old(browser.served))|), r)
      ensures r.Returned? ==> r.value == links + Accepted(SnapshotAt(browser.feed, old(browser.served)))
      ensures r.Returned? ==> browser.served == old(browser.served) + 1
    {
      ghost var log0, faulty := browser.log, browser.faulty;
      ghost var page := SnapshotAt(browser.feed, browser.served);
      ghost var plan := RoundCalls(|page|);
      var found := browser.FindAnchors();
      if found.Raised? {
        RanFailsAt<set<string>>(faulty, log0, [], QueryAnchors, plan);
        return Raised(found.at);
      }
      RanAll(faulty, log0, [QueryAnchors], ());
      ghost var log1 := browser.log;
      var read := ReadLinks(links, found.value);
      RanThen(faulty, log0, log1, browser.log, [QueryAnchors], HrefReads(|page|), (), read);
      if read.Raised? {
        RanAbort<set<string>, set<string>>(faulty, log0, browser.log, [QueryAnchors] + HrefReads(|page|), plan, read.at);
        return read;
      }
      RanOutcome(faulty, log0, browser.log, [QueryAnchors] + HrefReads(|page|), read);
      var scroll := browser.Perform(Scroll);
      if scroll.Raised? {
        RanFailsAt<set<string>>(faulty, log0, [QueryAnchors] + HrefReads(|page|), Scroll, plan);
        return Raised(scroll.at);
      }
      RanAll(faulty, log0, plan, read.value);
      r := read;
    }

    /** The inner loop over the anchors found: read each `href` and keep it when present and accepted. */
    method ReadLinks(links: set<string>, count: nat) returns (r: Outcome<set<string>>)
      requires count == |browser.anchors|
      modifies browser`log
      ensures Ran(browser.faulty, old(browser.log), browser.log, HrefReads(count), r)
      ensures r.Returned? ==> r.value == links + Accepted(browser.anchors)
    {
      ghost var log0, faulty := browser.log, browser.faulty;
      var grown := links;
      var k := 0;
      while k < count
        invariant 0 <= k <= count
        invariant browser.log == log0 + HrefReads(k)
        invariant Clean(faulty, |log0|, |browser.log|)
        invariant grown == links + Accepted(browser.anchors[..k])
      {
        var href := browser.GetHref(k);
        if href.Raised? {
          HrefReadsPrefix(k + 1, count);
          RanFailsAt<set<string>>(faulty, log0, HrefReads(k), ReadHref(k), HrefReads(count));
          return Raised(href.at);
        }
        assert browser.anchors[..k + 1] == browser.anchors[..k] + [href.value];
        if Present(href.value) && IsVideoLink(href.value) {
          grown := grown + {href.value.value};
        }
        k := k + 1;
      }
      assert browser.anchors[..k] == browser.anchors;
      RanAll(faulty, log0, HrefReads(count), grown);
      r := Returned(grown);
    }

    method Shutdown() returns (r: Outcome<()>)
      modifies browser
      ensures browser.log == old(browser.log) + ShutdownCalls()
      ensures browser.served == old(browser.served)
      ensures r.Returned? <==> Clean(browser.faulty, |old(browser.log)|, |browser.log|)
      ensures r.Raised? ==> r.at == |old(browser.log)| && r.at in browser.faulty
    {
      r := browser.Perform(Quit);
    }
  }
}
