/**
 * `fetchNvdWindow`: pages through the NVD 2.0 results for one date window.
 * Each page request goes through fetchWithRetry; `startIndex` advances by the
 * page's length, the loop repeats while it is below the page's
 * `totalResults`, and between pages it waits 700 ms with an API key and
 * 6500 ms without.
 *
 * Records are made by a `build` function; the sync passes
 * `BuilderOf(kevMap)`, that is buildCveItem with the KEV map.
 *
 * The NVD API is an oracle: `server(k, i)` is the response to attempt i of
 * the k-th page request. A window whose pages never reach `totalResults`
 * (an empty page below the total) makes the source loop forever; the model
 * takes a bound `maxRequests` on page requests and reports Unfinished when
 * the loop wants more.
 */
module NvdWindow {
  import opened Wrappers
  import opened NvdRecords
  import opened RecordBuilder
  import opened FetchRetry
  import opened Seqs

  const KEYED_PAGE_DELAY := 700
  const ANONYMOUS_PAGE_DELAY := 6500

  function PageDelay(hasApiKey: bool): nat
  {
    if hasApiKey then KEYED_PAGE_DELAY else ANONYMOUS_PAGE_DELAY
  }

  /** The items of a window, or a failed fetch (which aborts the run), or a window cut off by the bound. */
  datatype WindowOutcome = Items(items: seq<CveItem>) | Failed | Unfinished

  /** The outcome, every delay slept in order, and the number of page requests issued. */
  datatype WindowRun = WindowRun(outcome: WindowOutcome, delays: seq<int>, requests: nat)

  /** How a record is made from a raw CVE: buildCveItem with the KEV map loaded by the handler. */
  type Builder = RawCve -> CveItem

  function BuilderOf(kevMap: KevMap): Builder
  {
    (cve: RawCve) => BuildCveItem(cve, kevMap)
  }

  /** The records built from the entries of one page that carry a `cve`, in page order. */
  function PageItems(entries: seq<Entry>, build: Builder): (items: seq<CveItem>)
    ensures |items| <= |entries|
    decreases |entries|
  {
    if |entries| == 0 then []
    else
      var last := entries[|entries| - 1];
      PageItems(entries[..|entries| - 1], build) +
        (if last.cve.Some? then [build(last.cve.value)] else [])
  }

  /** Building a page keeps entry order: it distributes over concatenation. */
  lemma {:induction false} PageItemsAppend(a: seq<Entry>, b: seq<Entry>, build: Builder)
    ensures PageItems(a + b, build) == PageItems(a, build) + PageItems(b, build)
    decreases |b|
  {
    if |b| == 0 {
      assert a + b == a;
    } else {
      var n := |b|;
      assert (a + b)[..|a + b| - 1] == a + b[..n - 1];
      assert (a + b)[|a + b| - 1] == b[n - 1];
      PageItemsAppend(a, b[..n - 1], build);
    }
  }

  /**
   * One entry yields the record of its `cve`, or nothing when it has none;
   * with PageItemsAppend this fixes the records of every page.
   */
  lemma PageItemsSingle(e: Entry, build: Builder)
    ensures PageItems([e], build) == if e.cve.Some? then [build(e.cve.value)] else []
  {
    assert [e][..0] == [];
  }

  /** The attempts of the k-th page request. */
  function Attempts(server: (nat, nat) -> Response<Page>, k: nat): nat -> Response<Page>
  {
    (i: nat) => server(k, i)
  }

  function Prepend(items: seq<CveItem>, o: WindowOutcome): WindowOutcome
  {
    match o
    case Items(xs) => Items(items + xs)
    case _ => o
  }

  /** A run that first gathered `items`, slept `delays` and issued `requests` requests, then continued as `rest`. */
  function Then(items: seq<CveItem>, delays: seq<int>, requests: nat, rest: WindowRun): WindowRun
  {
    WindowRun(Prepend(items, rest.outcome), delays + rest.delays, requests + rest.requests)
  }

  /** Where the next page starts: `startIndex` advanced by the length of the page fetched, if any. */
  function NextIndex(fetch: RetryRun<Page>, startIndex: int): int
  {
    if fetch.outcome.Fetched? then startIndex + |fetch.outcome.data.vulnerabilities| else startIndex
  }

  /**
   * One turn of the do-while for a page request whose retries ended in
   * `fetch`; `rest` is what the following requests do (used only when the
   * loop goes on).
   */
  function Step(fetch: RetryRun<Page>, startIndex: int, build: Builder, hasApiKey: bool, rest: WindowRun): WindowRun
  {
    if !fetch.outcome.Fetched? then WindowRun(Failed, fetch.delays, 1)
    else
      var page := fetch.outcome.data;
      var items := PageItems(page.vulnerabilities, build);
      if NextIndex(fetch, startIndex) < NumberOr0(page.totalResults) then
        Then(items, fetch.delays + [PageDelay(hasApiKey)], 1, rest)
      else WindowRun(Items(items), fetch.delays, 1)
  }

  /** What fetchWithRetry returns for each page request; for the real API, RetryFrom over its attempts. */
  type PageFetch = nat -> RetryRun<Page>

  function PagesOf(server: (nat, nat) -> Response<Page>): PageFetch
  {
    (k: nat) => RetryFrom(Attempts(server, k), 0, DEFAULT_RETRIES)
  }

  /** The page requests from the k-th on, starting at `startIndex`. */
  function WindowFrom(pages: PageFetch, build: Builder, hasApiKey: bool,
                      k: nat, startIndex: int, maxRequests: nat): (run: WindowRun)
    ensures k < maxRequests ==> run.requests <= maxRequests - k
    ensures run.outcome.Items? ==> run.requests > 0
    decreases maxRequests - k
  {
    if k >= maxRequests then WindowRun(Unfinished, [], 0)
    else
      var fetch := pages(k);
      Step(fetch, startIndex, build, hasApiKey,
           WindowFrom(pages, build, hasApiKey, k + 1, NextIndex(fetch, startIndex), maxRequests))
  }

  /** `item` is the record `build` makes of some CVE. */
  ghost predicate IsBuilt(build: Builder, item: CveItem)
  {
    exists c: RawCve :: build(c) == item
  }

  ghost predicate AllBuilt(build: Builder, items: seq<CveItem>)
  {
    forall t :: 0 <= t < |items| ==> IsBuilt(build, items[t])
  }

  lemma AllBuiltAppend(build: Builder, a: seq<CveItem>, b: seq<CveItem>)
    requires AllBuilt(build, a) && AllBuilt(build, b)
    ensures AllBuilt(build, a + b)
  {
    forall t | 0 <= t < |a + b| ensures IsBuilt(build, (a + b)[t]) {
      if t < |a| {
        assert (a + b)[t] == a[t];
      } else {
        assert (a + b)[t] == b[t - |a|];
      }
    }
  }

  /** Every record of a page is one that `build` makes: records come from nowhere else. */
  lemma {:induction false} PageItemsBuilt(entries: seq<Entry>, build: Builder)
    ensures AllBuilt(build, PageItems(entries, build))
    decreases |entries|
  {
    if |entries| > 0 {
      var n := |entries|;
      var last := entries[n - 1];
      PageItemsBuilt(entries[..n - 1], build);
      var tail := if last.cve.Some? then [build(last.cve.value)] else [];
      if last.cve.Some? {
        assert IsBuilt(build, tail[0]) by { assert build(last.cve.value) == tail[0]; }
      }
      AllBuiltAppend(build, PageItems(entries[..n - 1], build), tail);
    }
  }

  /** Every record a window gathers is one that `build` makes. */
  lemma {:induction false} WindowItemsBuilt(pages: PageFetch, build: Builder, hasApiKey: bool,
                                            k: nat, startIndex: int, maxRequests: nat)
    ensures var run := WindowFrom(pages, build, hasApiKey, k, startIndex, maxRequests);
            run.outcome.Items? ==> AllBuilt(build, run.outcome.items)
    decreases maxRequests - k
  {
    if k < maxRequests {
      var fetch := pages(k);
      var rest := WindowFrom(pages, build, hasApiKey, k + 1, NextIndex(fetch, startIndex), maxRequests);
      WindowItemsBuilt(pages, build, hasApiKey, k + 1, NextIndex(fetch, startIndex), maxRequests);
      if fetch.outcome.Fetched? {
        var items := PageItems(fetch.outcome.data.vulnerabilities, build);
        PageItemsBuilt(fetch.outcome.data.vulnerabilities, build);
        if rest.outcome.Items? {
          AllBuiltAppend(build, items, rest.outcome.items);
        }
      }
    }
  }

  lemma ThenThen(a: seq<CveItem>, d: seq<int>, n: nat, b: seq<CveItem>, e: seq<int>, m: nat, r: WindowRun)
    ensures Then(a, d, n, Then(b, e, m, r)) == Then(a + b, d + e, n + m, r)
  {
    assert d + (e + r.delays) == (d + e) + r.delays;
    match r.outcome
    case Items(xs) => assert a + (b + xs) == (a + b) + xs;
    case _ =>
  }

  /** The `for (const entry of vulnerabilities)` loop: pushes the record of every entry with a `cve`. */
  method AppendPageItems(allItems: seq<CveItem>, vulns: seq<Entry>, build: Builder) returns (items: seq<CveItem>)
    ensures items == allItems + PageItems(vulns, build)
  {
    items := allItems;
    for j := 0 to |vulns|
      invariant items == allItems + PageItems(vulns[..j], build)
    {
      assert vulns[..j + 1][..j] == vulns[..j];
      if vulns[j].cve.Some? {
        items := items + [build(vulns[j].cve.value)];
      }
    }
    assert vulns[..|vulns|] == vulns;
  }

  /** One turn of the loop, for a page request that returned `page` after sleeping `fetchDelays`. */
  lemma WindowStep(pages: PageFetch, build: Builder, hasApiKey: bool,
                   k: nat, startIndex: int, maxRequests: nat, items: seq<CveItem>, delays: seq<int>,
                   page: Page, fetchDelays: seq<int>, attempts: nat)
    requires k < maxRequests
    requires pages(k) == RetryRun(Fetched(page), fetchDelays, attempts)
    ensures startIndex + |page.vulnerabilities| < NumberOr0(page.totalResults) ==>
              Then(items, delays, k, WindowFrom(pages, build, hasApiKey, k, startIndex, maxRequests)) ==
              Then(items + PageItems(page.vulnerabilities, build), delays + fetchDelays + [PageDelay(hasApiKey)], k + 1,
                   WindowFrom(pages, build, hasApiKey, k + 1, startIndex + |page.vulnerabilities|, maxRequests))
    ensures startIndex + |page.vulnerabilities| >= NumberOr0(page.totalResults) ==>
              Then(items, delays, k, WindowFrom(pages, build, hasApiKey, k, startIndex, maxRequests)) ==
              WindowRun(Items(items + PageItems(page.vulnerabilities, build)), delays + fetchDelays, k + 1)
  {
    var next := startIndex + |page.vulnerabilities|;
    var pageItems := PageItems(page.vulnerabilities, build);
    if next < NumberOr0(page.totalResults) {
      var rest := WindowFrom(pages, build, hasApiKey, k + 1, next, maxRequests);
      assert WindowFrom(pages, build, hasApiKey, k, startIndex, maxRequests) ==
             Then(pageItems, fetchDelays + [PageDelay(hasApiKey)], 1, rest);
      ThenThen(items, delays, k, pageItems, fetchDelays + [PageDelay(hasApiKey)], 1, rest);
      assert delays + (fetchDelays + [PageDelay(hasApiKey)]) == delays + fetchDelays + [PageDelay(hasApiKey)];
    } else {
      assert WindowFrom(pages, build, hasApiKey, k, startIndex, maxRequests) ==
             WindowRun(Items(pageItems), fetchDelays, 1);
    }
  }

  /** The body of the loop after a page was fetched: collect its records, advance, and sleep if another page follows. */
  method TakePage(server: (nat, nat) -> Response<Page>, build: Builder, hasApiKey: bool, maxRequests: nat,
                  requests: nat, startIndex: int, allItems: seq<CveItem>, delays: seq<int>,
                  page: Page, d: seq<int>, attempts: nat)
    returns (items': seq<CveItem>, startIndex': int, delays': seq<int>, more: bool)
    requires requests < maxRequests
    requires RetryFrom(Attempts(server, requests), 0, DEFAULT_RETRIES) == RetryRun(Fetched(page), d, attempts)
    ensures more ==>
              Then(allItems, delays, requests, WindowFrom(PagesOf(server), build, hasApiKey, requests, startIndex, maxRequests)) ==
              Then(items', delays', requests + 1, WindowFrom(PagesOf(server), build, hasApiKey, requests + 1, startIndex', maxRequests))
    ensures !more ==>
              Then(allItems, delays, requests, WindowFrom(PagesOf(server), build, hasApiKey, requests, startIndex, maxRequests)) ==
              WindowRun(Items(items'), delays', requests + 1)
  {
    assert PagesOf(server)(requests) == RetryRun(Fetched(page), d, attempts);
    WindowStep(PagesOf(server), build, hasApiKey, requests, startIndex, maxRequests, allItems, delays, page, d, attempts);
    var totalResults := NumberOr0(page.totalResults);
    items' := AppendPageItems(allItems, page.vulnerabilities, build);
    startIndex' := startIndex + |page.vulnerabilities|;
    delays' := delays + d;
    more := startIndex' < totalResults;
    if more {
      delays' := delays' + [PageDelay(hasApiKey)];
    }
  }

  /**
   * One turn of the do-while: request the page at `startIndex` through
   * fetchWithRetry, then either stop (the fetch failed, or this was the last
   * page) or go on with the next page.
   */
  method PageRequest(server: (nat, nat) -> Response<Page>, build: Builder, hasApiKey: bool, maxRequests: nat,
                     requests: nat, startIndex: int, allItems: seq<CveItem>, delays: seq<int>)
    returns (stop: bool, outcome: WindowOutcome, items': seq<CveItem>, startIndex': int, delays': seq<int>)
    requires requests < maxRequests
    ensures stop ==>
              Then(allItems, delays, requests, WindowFrom(PagesOf(server), build, hasApiKey, requests, startIndex, maxRequests)) ==
              WindowRun(outcome, delays', requests + 1)
    ensures !stop ==>
              Then(allItems, delays, requests, WindowFrom(PagesOf(server), build, hasApiKey, requests, startIndex, maxRequests)) ==
              Then(items', delays', requests + 1, WindowFrom(PagesOf(server), build, hasApiKey, requests + 1, startIndex', maxRequests))
  {
    var fetched, d, attempts := FetchWithRetry(Attempts(server, requests), DEFAULT_RETRIES);
    if !fetched.Fetched? {
      assert WindowFrom(PagesOf(server), build, hasApiKey, requests, startIndex, maxRequests) == WindowRun(Failed, d, 1);
      return true, Failed, allItems, startIndex, delays + d;
    }
    var more;
    items', startIndex', delays', more :=
      TakePage(server, build, hasApiKey, maxRequests, requests, startIndex, allItems, delays, fetched.data, d, attempts);
    stop, outcome := !more, Items(items');
  }

  method FetchNvdWindow(server: (nat, nat) -> Response<Page>, build: Builder, hasApiKey: bool, maxRequests: nat)
    returns (outcome: WindowOutcome, delays: seq<int>, requests: nat)
    ensures WindowRun(outcome, delays, requests) == WindowFrom(PagesOf(server), build, hasApiKey, 0, 0, maxRequests)
  {
    ghost var whole := WindowFrom(PagesOf(server), build, hasApiKey, 0, 0, maxRequests);
    var startIndex := 0;
    var allItems: seq<CveItem> := [];
    delays, requests, outcome := [], 0, Unfinished;
    var more := true;
    assert whole == Then([], [], 0, whole);
    while more
      invariant requests <= maxRequests
      invariant more ==>
        whole == Then(allItems, delays, requests, WindowFrom(PagesOf(server), build, hasApiKey, requests, startIndex, maxRequests))
      invariant !more ==> whole == WindowRun(outcome, delays, requests)
      decreases more, maxRequests - requests
    {
      if requests >= maxRequests {
        AppendEmpty(delays);
        return Unfinished, delays, requests;
      }
      var stop;
      stop, outcome, allItems, startIndex, delays :=
        PageRequest(server, build, hasApiKey, maxRequests, requests, startIndex, allItems, delays);
      requests := requests + 1;
      more := !stop;
    }
  }

  // ----- what paging guarantees -----

  /** Every wait inside one page request is a retry wait: 10 s after a rate limit, 5 s after another failure. */
  lemma RetryDelaysOnly(server: (nat, nat) -> Response<Page>, k: nat)
    ensures forall t :: 0 <= t < |PagesOf(server)(k).delays| ==>
              PagesOf(server)(k).delays[t] == RATE_LIMIT_DELAY || PagesOf(server)(k).delays[t] == ERROR_DELAY
  {
    forall t | 0 <= t < |PagesOf(server)(k).delays|
      ensures PagesOf(server)(k).delays[t] == RATE_LIMIT_DELAY || PagesOf(server)(k).delays[t] == ERROR_DELAY
    {
      DelayPerAttempt(Attempts(server, k), 0, DEFAULT_RETRIES, t);
    }
  }

  /** Every wait inside every page request is a retry wait. */
  ghost predicate OnlyRetryWaits(pages: PageFetch)
  {
    forall j: nat, t :: 0 <= t < |pages(j).delays| ==>
      pages(j).delays[t] == RATE_LIMIT_DELAY || pages(j).delays[t] == ERROR_DELAY
  }

  /** Every wait in `delays` is the page delay `pd` or a retry wait. */
  predicate OnlyWaitsOf(delays: seq<int>, pd: int)
  {
    forall t :: 0 <= t < |delays| ==> delays[t] == pd || delays[t] == RATE_LIMIT_DELAY || delays[t] == ERROR_DELAY
  }

  /** For a page fetcher whose requests only sleep retry waits, a window sleeps nothing but those and the page delay. */
  lemma {:induction false} WindowWaitKinds(pages: PageFetch, build: Builder, hasApiKey: bool,
                                           k: nat, startIndex: int, maxRequests: nat)
    requires OnlyRetryWaits(pages)
    ensures OnlyWaitsOf(WindowFrom(pages, build, hasApiKey, k, startIndex, maxRequests).delays, PageDelay(hasApiKey))
    decreases maxRequests - k
  {
    if k < maxRequests {
      var pd := PageDelay(hasApiKey);
      var fetch := pages(k);
      var next := NextIndex(fetch, startIndex);
      var rest := WindowFrom(pages, build, hasApiKey, k + 1, next, maxRequests);
      WindowWaitKinds(pages, build, hasApiKey, k + 1, next, maxRequests);
      assert OnlyWaitsOf(fetch.delays, pd);
      if fetch.outcome.Fetched? && next < NumberOr0(fetch.outcome.data.totalResults) {
        var d := fetch.delays + [pd] + rest.delays;
        assert WindowFrom(pages, build, hasApiKey, k, startIndex, maxRequests).delays == d;
        forall t | 0 <= t < |d|
          ensures d[t] == pd || d[t] == RATE_LIMIT_DELAY || d[t] == ERROR_DELAY
        {
          if t < |fetch.delays| {
            assert d[t] == fetch.delays[t];
          } else if t > |fetch.delays| {
            assert d[t] == rest.delays[t - |fetch.delays| - 1];
          }
        }
      }
    }
  }

  /** For a page fetcher whose requests only sleep retry waits, the page delay is slept once per request but the last. */
  lemma {:induction false} PageDelayCount(pages: PageFetch, build: Builder, hasApiKey: bool,
                                          k: nat, startIndex: int, maxRequests: nat)
    requires OnlyRetryWaits(pages)
    ensures var run := WindowFrom(pages, build, hasApiKey, k, startIndex, maxRequests);
            !run.outcome.Unfinished? ==> run.requests > 0
    ensures var run := WindowFrom(pages, build, hasApiKey, k, startIndex, maxRequests);
            Count(run.delays, PageDelay(hasApiKey)) == if run.outcome.Unfinished? then run.requests else run.requests - 1
    decreases maxRequests - k
  {
    if k < maxRequests {
      var pd := PageDelay(hasApiKey);
      var fetch := pages(k);
      var next := NextIndex(fetch, startIndex);
      var rest := WindowFrom(pages, build, hasApiKey, k + 1, next, maxRequests);
      PageDelayCount(pages, build, hasApiKey, k + 1, next, maxRequests);
      CountAbsent(fetch.delays, pd);
      if fetch.outcome.Fetched? && next < NumberOr0(fetch.outcome.data.totalResults) {
        CountAppend(fetch.delays, [pd], pd);
        CountAppend(fetch.delays + [pd], rest.delays, pd);
        assert Count([pd], pd) == 1 by { assert [pd][1..] == []; }
      }
    }
  }

  /**
   * The page delay is slept once between each two page requests and nowhere
   * else, whatever retries happen: every wait of a window is the page delay
   * or a retry wait, and the page delay occurs once per request but the
   * last (once per request when the bound cut the window off, since every
   * request made then was followed by another).
   */
  lemma PageDelayBetweenRequests(server: (nat, nat) -> Response<Page>, build: Builder, hasApiKey: bool,
                                 k: nat, startIndex: int, maxRequests: nat)
    ensures OnlyWaitsOf(WindowFrom(PagesOf(server), build, hasApiKey, k, startIndex, maxRequests).delays, PageDelay(hasApiKey))
    ensures var run := WindowFrom(PagesOf(server), build, hasApiKey, k, startIndex, maxRequests);
            Count(run.delays, PageDelay(hasApiKey)) == if run.outcome.Unfinished? then run.requests else run.requests - 1
  {
    forall j: nat {
      RetryDelaysOnly(server, j);
    }
    WindowWaitKinds(PagesOf(server), build, hasApiKey, k, startIndex, maxRequests);
    PageDelayCount(PagesOf(server), build, hasApiKey, k, startIndex, maxRequests);
  }

  /** A page request whose first attempt succeeds returns that body at once, without sleeping. */
  lemma FirstAttemptPages(server: (nat, nat) -> Response<Page>, k: nat)
    requires Succeeds(server(k, 0))
    ensures PagesOf(server)(k).outcome == Fetched(server(k, 0).body.value) && PagesOf(server)(k).delays == []
  {
    assert Attempts(server, k)(0) == server(k, 0);
  }

  /**
   * When every page request is answered at the first attempt, the only
   * delays are the inter-page ones, one between each two consecutive
   * requests, and the window cannot fail.
   */
  lemma {:induction false} OnlyPageDelays(server: (nat, nat) -> Response<Page>, build: Builder, hasApiKey: bool,
                                           k: nat, startIndex: int, maxRequests: nat)
    requires forall j: nat :: Succeeds(server(j, 0))
    ensures !WindowFrom(PagesOf(server), build, hasApiKey, k, startIndex, maxRequests).outcome.Failed?
    ensures var run := WindowFrom(PagesOf(server), build, hasApiKey, k, startIndex, maxRequests);
            forall t :: 0 <= t < |run.delays| ==> run.delays[t] == PageDelay(hasApiKey)
    ensures var run := WindowFrom(PagesOf(server), build, hasApiKey, k, startIndex, maxRequests);
            run.outcome.Items? ==> |run.delays| + 1 == run.requests
    decreases maxRequests - k
  {
    if k < maxRequests {
      FirstAttemptPages(server, k);
      var page := PagesOf(server)(k).outcome.data;
      var next := startIndex + |page.vulnerabilities|;
      if next < NumberOr0(page.totalResults) {
        OnlyPageDelays(server, build, hasApiKey, k + 1, next, maxRequests);
      }
    }
  }
}
