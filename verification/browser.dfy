/**
 * The browser as the scrapers see it. Playwright's page and Selenium's
 * WebDriver are foreign libraries; here one simulated driver stands for both.
 * It serves a caller-supplied sequence of href snapshots (one per query of the
 * anchors on the page), records every call made on it in a log, and raises
 * on exactly the calls whose log position is in `faulty`.
 */
module Browser {
  import opened Wrappers

  /** The `href` of one anchor: Selenium's `get_attribute` may give `None`. */
  type Href = Option<string>

  /** The landing page both scrapers open first. */
  const Home := "https://www.douyin.com/"

  /** One call on the driver, as recorded in its log. */
  datatype Call =
    | Navigate(url: string)   // page.goto / driver.get
    | Wait(ms: int)           // page.wait_for_timeout
    | QueryAnchors            // find the anchors on the page (and, for Playwright, read their hrefs)
    | ReadHref(index: nat)    // Selenium: get_attribute("href") of the index-th anchor found
    | Scroll                  // window.scrollBy(0, window.innerHeight)
    | CloseContext            // Playwright: context.close()
    | CloseBrowser            // Playwright: browser.close()
    | StopPlaywright          // Playwright: the sync_playwright driver's stop()
    | Quit                    // Selenium: driver.quit()
  {
    /** Calls that release browser resources; only `shutdown` makes them. */
    predicate IsTeardown() {
      CloseContext? || CloseBrowser? || StopPlaywright? || Quit?
    }
  }

  /** A Python call either returns a value or raises; `at` is the log position of the call that raised. */
  datatype Outcome<T> = Returned(value: T) | Raised(at: nat)

  /** Python truthiness of an optional string: present and non-empty. */
  predicate Present(h: Href)
  {
    h.Some? && h.value != ""
  }

  /** The snapshot served by the `k`-th query; past the end of the feed the page has no anchors. */
  function SnapshotAt(feed: seq<seq<Href>>, k: nat): seq<Href>
  {
    if k < |feed| then feed[k] else []
  }

  /** The in-page script `els.map(e => e.href).filter(Boolean)`: the present hrefs, in page order. */
  function TruthyHrefs(hs: seq<Href>): (r: seq<string>)
    ensures |r| <= |hs|
    ensures forall x :: x in r <==> x != "" && Some(x) in hs
  {
    if hs == [] then []
    else
      var last := hs[|hs| - 1];
      TruthyHrefs(hs[..|hs| - 1]) + (if Present(last) then [last.value] else [])
  }

  /** No call at a log position in [lo, hi) raises. */
  predicate Clean(faulty: set<nat>, lo: nat, hi: nat)
  {
    forall k: nat :: lo <= k < hi ==> k !in faulty
  }

  /**
   * Running the calls of `plan` one after another, starting from log `log0`,
   * led to log `log` and outcome `r`: the calls were made in order, and the
   * run stopped at the first call that raised, reporting that call.
   */
  ghost predicate Ran<T>(faulty: set<nat>, log0: seq<Call>, log: seq<Call>, plan: seq<Call>, r: Outcome<T>)
  {
    && |log0| <= |log| <= |log0| + |plan|
    && log == log0 + plan[..|log| - |log0|]
    && match r
       case Returned(_) => log == log0 + plan && Clean(faulty, |log0|, |log|)
       case Raised(at) => at + 1 == |log| && |log0| <= at && at in faulty && Clean(faulty, |log0|, at)
  }

  /** Each call a run made is the call of the plan at the same offset. */
  lemma RanCallAt<T>(faulty: set<nat>, log0: seq<Call>, log: seq<Call>, plan: seq<Call>, r: Outcome<T>, k: nat)
    requires Ran(faulty, log0, log, plan, r)
    requires |log0| <= k < |log|
    ensures log[k] == plan[k - |log0|]
  {
    assert log[k] == (log0 + plan[..|log| - |log0|])[k];
  }

  /**
   * A run of `main` cut short at `cut`, followed by the calls `down`: when only
   * `down` releases resources, the calls that release them are exactly those
   * from `cut` on.
   */
  lemma TeardownAfterCut<T>(faulty: set<nat>, log0: seq<Call>, log: seq<Call>, cut: nat,
                            main: seq<Call>, down: seq<Call>, attempt: Outcome<T>)
    requires |log0| <= cut <= |log|
    requires Ran(faulty, log0, log[..cut], main, attempt)
    requires log[cut..] == down
    requires forall c :: c in main ==> !c.IsTeardown()
    requires forall c :: c in down ==> c.IsTeardown()
    ensures forall k :: |log0| <= k < |log| ==> (log[k].IsTeardown() <==> cut <= k)
  {
    forall k | |log0| <= k < |log|
      ensures log[k].IsTeardown() <==> cut <= k
    {
      if k < cut {
        RanCallAt(faulty, log0, log[..cut], main, attempt, k);
        assert log[k] == log[..cut][k];
        assert main[k - |log0|] in main;
      } else {
        assert log[k] == down[k - cut];
      }
    }
  }

  /** A run returns exactly when no call of its plan is faulty. */
  lemma RanOutcome<T>(faulty: set<nat>, log0: seq<Call>, log: seq<Call>, plan: seq<Call>, r: Outcome<T>)
    requires Ran(faulty, log0, log, plan, r)
    ensures r.Returned? <==> Clean(faulty, |log0|, |log0| + |plan|)
  {
    if r.Raised? {
      assert |log| <= |log0 + plan|;
    }
  }

  /** Running `p1` to completion and then `p2` is running `p1 + p2`. */
  lemma RanThen<T, U>(faulty: set<nat>, log0: seq<Call>, log1: seq<Call>, log2: seq<Call>,
                      p1: seq<Call>, p2: seq<Call>, v: T, r: Outcome<U>)
    requires Ran(faulty, log0, log1, p1, Returned(v))
    requires Ran(faulty, log1, log2, p2, r)
    ensures Ran(faulty, log0, log2, p1 + p2, r)
  {
    assert log0 + p1 + p2 == log0 + (p1 + p2);
    assert log0 <= log2 by {
      assert log2[..|log0|] == log2[..|log1|][..|log0|];
    }
    assert log2 <= log0 + (p1 + p2) by {
      assert (log0 + (p1 + p2))[..|log2|] == (log1 + p2)[..|log2|];
    }
  }

  /** A run that raised inside `p1` is also a run of any longer plan `p1 + p2`. */
  lemma RanStop<T, U>(faulty: set<nat>, log0: seq<Call>, log: seq<Call>, p1: seq<Call>, p2: seq<Call>, at: nat)
    requires Ran(faulty, log0, log, p1, Outcome<T>.Raised(at))
    ensures Ran(faulty, log0, log, p1 + p2, Outcome<U>.Raised(at))
  {
    assert (log0 + (p1 + p2))[..|log0 + p1|] == log0 + p1;
  }

  /** Every call of `plan` returned. */
  lemma RanAll<T>(faulty: set<nat>, log0: seq<Call>, plan: seq<Call>, v: T)
    requires Clean(faulty, |log0|, |log0| + |plan|)
    ensures Ran(faulty, log0, log0 + plan, plan, Returned(v))
  {
    assert plan[..|plan|] == plan;
  }

  /** The calls `done` returned and the next call `c` of `plan` raised. */
  lemma RanFailsAt<T>(faulty: set<nat>, log0: seq<Call>, done: seq<Call>, c: Call, plan: seq<Call>)
    requires Clean(faulty, |log0|, |log0| + |done|)
    requires |log0| + |done| in faulty
    requires done + [c] <= plan
    ensures Ran(faulty, log0, log0 + done + [c], plan, Outcome<T>.Raised(|log0| + |done|))
  {
    assert plan[..|done| + 1] == done + [c];
  }

  /** A run that raised part-way through `done` is also a run of any plan that `done` begins. */
  lemma RanAbort<T, U>(faulty: set<nat>, log0: seq<Call>, log: seq<Call>, done: seq<Call>, plan: seq<Call>, at: nat)
    requires Ran(faulty, log0, log, done, Outcome<T>.Raised(at))
    requires done <= plan
    ensures Ran(faulty, log0, log, plan, Outcome<U>.Raised(at))
  {
    assert plan == done + plan[|done|..];
    RanStop<T, U>(faulty, log0, log, done, plan[|done|..], at);
  }

  class Driver {
    /** What the page shows at each successive query of its anchors. */
    const feed: seq<seq<Href>>
    /** The log positions at which a call raises. */
    const faulty: set<nat>
    /** How many snapshots have been served. */
    var served: nat
    /** Every call made on the driver, in order. */
    var log: seq<Call>
    /** The anchors Selenium's last `find_elements` found, as their hrefs. */
    var anchors: seq<Href>

    constructor (feed: seq<seq<Href>>, faulty: set<nat>)
      ensures this.feed == feed && this.faulty == faulty
      ensures served == 0 && log == [] && anchors == []
    {
      this.feed := feed;
      this.faulty := faulty;
      served := 0;
      log := [];
      anchors := [];
    }

    /** Make one call that yields no data (navigate, wait, scroll, close, quit). */
    method Perform(c: Call) returns (r: Outcome<()>)
      modifies this`log
      ensures log == old(log) + [c]
      ensures r.Returned? <==> |old(log)| !in faulty
      ensures r.Raised? ==> r.at == |old(log)|
    {
      log := log + [c];
      if |log| - 1 in faulty {
        r := Raised(|log| - 1);
      } else {
        r := Returned(());
      }
    }

    /** Selenium: `find_elements(By.TAG_NAME, "a")`; answers how many anchors it found. */
    method FindAnchors() returns (r: Outcome<nat>)
      modifies this
      ensures log == old(log) + [QueryAnchors]
      ensures r.Returned? <==> |old(log)| !in faulty
      ensures r.Raised? ==> r.at == |old(log)| && served == old(served) && anchors == old(anchors)
      ensures r.Returned? ==> anchors == SnapshotAt(feed, old(served)) && r.value == |anchors|
      ensures r.Returned? ==> served == old(served) + 1
    {
      log := log + [QueryAnchors];
      if |log| - 1 in faulty {
        r := Raised(|log| - 1);
      } else {
        anchors := SnapshotAt(feed, served);
        served := served + 1;
        r := Returned(|anchors|);
      }
    }

    /** Selenium: `get_attribute("href")` of the `k`-th anchor of the last query. */
    method GetHref(k: nat) returns (r: Outcome<Href>)
      requires k < |anchors|
      modifies this`log
      ensures log == old(log) + [ReadHref(k)]
      ensures r.Returned? <==> |old(log)| !in faulty
      ensures r.Raised? ==> r.at == |old(log)|
      ensures r.Returned? ==> r.value == anchors[k]
    {
      log := log + [ReadHref(k)];
      if |log| - 1 in faulty {
        r := Raised(|log| - 1);
      } else {
        r := Returned(anchors[k]);
      }
    }

    /** Playwright: `eval_on_selector_all("a", ...)`, the present hrefs of all anchors. */
    method EvalHrefs() returns (r: Outcome<seq<string>>)
      modifies this`log, this`served
      ensures log == old(log) + [QueryAnchors]
      ensures r.Returned? <==> |old(log)| !in faulty
      ensures r.Raised? ==> r.at == |old(log)|
      ensures r.Returned? ==> r.value == TruthyHrefs(SnapshotAt(feed, old(served))) && served == old(served) + 1
      ensures r.Raised? ==> served == old(served)
    {
      log := log + [QueryAnchors];
      if |log| - 1 in faulty {
        r := Raised(|log| - 1);
      } else {
        r := Returned(TruthyHrefs(SnapshotAt(feed, served)));
        served := served + 1;
      }
    }
  }
}
