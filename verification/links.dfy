/**
 * What both scrapers' `collect_video_links` gather: per snapshot, the hrefs the
 * classifier accepts; over a run, the union of those sets; returned as
 * `list(set)`, a list without duplicates in unspecified order.
 */
module Links {
  import opened Wrappers
  import opened Classifier
  import opened Browser

  /** `len(range(scrolls))`: a negative count runs no iteration. */
  function Rounds(scrolls: int): (n: nat)
    ensures n == 0 <==> scrolls <= 0
    ensures n > 0 ==> n == scrolls
  {
    if scrolls < 0 then 0 else scrolls
  }

  /** The links one raw snapshot contributes (Selenium's inner loop). */
  function Accepted(hs: seq<Href>): set<string>
  {
    set h | h in hs && IsVideoLink(h) :: h.value
  }

  /** The links a list of href strings contributes (Playwright's inner loop). */
  function AcceptedText(hs: seq<string>): set<string>
  {
    set x | x in hs && IsVideoLink(Some(x))
  }

  /** A snapshot contributes exactly its hrefs that the classifier accepts. */
  lemma AcceptedMembers(hs: seq<Href>, x: string)
    ensures x in Accepted(hs) <==> Some(x) in hs && IsVideoLink(Some(x))
  {
    if Some(x) in hs && IsVideoLink(Some(x)) {
      var h := Some(x);
      assert h in hs && IsVideoLink(h);
    }
  }

  /**
   * Both back ends draw the same links from one page: Playwright filters out
   * missing and empty hrefs in the page script, Selenium guards them in Python,
   * and the classifier rejects both anyway.
   */
  lemma SameLinksFromPage(hs: seq<Href>)
    ensures AcceptedText(TruthyHrefs(hs)) == Accepted(hs)
  {
    forall x
      ensures x in AcceptedText(TruthyHrefs(hs)) <==> x in Accepted(hs)
    {
      AcceptedMembers(hs, x);
    }
  }

  /** The links gathered from the `n` snapshots served from query number `from` on. */
  function Harvest(feed: seq<seq<Href>>, from: nat, n: nat): set<string>
  {
    if n == 0 then {} else Harvest(feed, from, n - 1) + Accepted(SnapshotAt(feed, from + n - 1))
  }

  /** Some snapshot served by queries `from` .. `from + n - 1` holds the href `x`. */
  ghost predicate SeenIn(feed: seq<seq<Href>>, from: nat, n: nat, x: string)
  {
    exists k :: from <= k < from + n && Some(x) in SnapshotAt(feed, k)
  }

  /** A link is harvested exactly when it is accepted and some snapshot of the run holds it. */
  lemma {:induction false} HarvestMembers(feed: seq<seq<Href>>, from: nat, n: nat, x: string)
    ensures x in Harvest(feed, from, n) <==> IsVideoLink(Some(x)) && SeenIn(feed, from, n, x)
  {
    if n > 0 {
      var last := from + n - 1;
      HarvestMembers(feed, from, n - 1, x);
      AcceptedMembers(SnapshotAt(feed, last), x);
      if SeenIn(feed, from, n, x) && !SeenIn(feed, from, n - 1, x) {
        var k :| from <= k < from + n && Some(x) in SnapshotAt(feed, k);
        assert k == last;
      }
      if Some(x) in SnapshotAt(feed, last) {
        assert SeenIn(feed, from, n, x);
      }
      if SeenIn(feed, from, n - 1, x) {
        var k :| from <= k < from + n - 1 && Some(x) in SnapshotAt(feed, k);
        assert SeenIn(feed, from, n, x);
      }
    } else {
      assert !SeenIn(feed, from, n, x);
    }
  }

  /** The harvested set only grows from one iteration to the next. */
  lemma {:induction false} HarvestGrows(feed: seq<seq<Href>>, from: nat, m: nat, n: nat)
    requires m <= n
    ensures Harvest(feed, from, m) <= Harvest(feed, from, n)
    decreases n - m
  {
    if m < n {
      HarvestGrows(feed, from, m, n - 1);
      var before, step := Harvest(feed, from, n - 1), Accepted(SnapshotAt(feed, from + n - 1));
      assert Harvest(feed, from, n) == before + step;
      assert before <= before + step;
    }
  }

  /** A link seen in several snapshots is harvested once: the run over a repeated page equals one page. */
  lemma {:induction false} RepeatedPageOnce(page: seq<Href>, n: nat)
    requires n > 0
    ensures Harvest(seq(n, _ => page), 0, n) == Accepted(page)
  {
    var feed := seq(n, _ => page);
    forall m | 1 <= m <= n
      ensures Harvest(feed, 0, m) == Accepted(page)
    {
      RepeatedPrefix(page, n, m);
    }
  }

  lemma {:induction false} RepeatedPrefix(page: seq<Href>, n: nat, m: nat)
    requires 1 <= m <= n
    ensures Harvest(seq(n, _ => page), 0, m) == Accepted(page)
  {
    var feed := seq(n, _ => page);
    assert SnapshotAt(feed, m - 1) == page;
    if m > 1 {
      RepeatedPrefix(page, n, m - 1);
    }
  }

  /** No element occurs twice. */
  predicate Distinct(xs: seq<string>)
  {
    forall i, j :: 0 <= i < j < |xs| ==> xs[i] != xs[j]
  }

  /** `xs` lists the elements of `s`, each once. */
  ghost predicate Lists(xs: seq<string>, s: set<string>)
  {
    Distinct(xs) && |xs| == |s| && forall x :: x in xs <==> x in s
  }

  /** Python's `list(s)` for a set: every element once, in an order the language leaves open. */
  method SetToList(s: set<string>) returns (xs: seq<string>)
    ensures Lists(xs, s)
  {
    xs := [];
    var rest := s;
    while rest != {}
      invariant rest <= s
      invariant Distinct(xs)
      invariant forall x :: x in xs <==> x in s - rest
      invariant |xs| == |s - rest|
      decreases |rest|
    {
      var x :| x in rest;
      assert s - (rest - {x}) == (s - rest) + {x};
      xs := xs + [x];
      rest := rest - {x};
    }
    assert s - rest == s;
  }
}
