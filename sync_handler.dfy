/**
 * `handler`: the Lambda entry point. It loads the KEV map, plans the date
 * windows between the start and end day, and for every window fetches the
 * NVD records, counts them and the KEV matches among them, and writes them
 * when there are any. Any thrown error (a failed KEV download, a failed page
 * fetch) ends the run with status 500; otherwise it answers 200 with the
 * three totals.
 *
 * The clock is a parameter: the caller passes the start and end day (two
 * years ago and today). The NVD API is an oracle `nvd(window, k, i)` (attempt
 * i of the k-th page request for that window) and DynamoDB an oracle
 * `store(window, b, c, request)` (the c-th send of the b-th slice written
 * for that window).
 */
module SyncHandler {
  import opened Wrappers
  import opened NvdRecords
  import opened FetchRetry
  import opened KevLookup
  import opened DateWindows
  import opened NvdWindow
  import opened BatchWriter
  import opened RecordBuilder

  datatype Summary = Summary(totalProcessed: nat, totalWritten: nat, kevMatches: nat)

  /** A finished run (status 200), a run ended by a thrown error (status 500), or a window cut off by the request bound. */
  datatype SyncResult = Completed(summary: Summary) | SyncFailed | SyncUnfinished

  datatype SyncRun = SyncRun(result: SyncResult, delays: seq<int>)

  type NvdServer = (DateWindow, nat, nat) -> Response<Page>

  type WindowStore = (DateWindow, nat, nat, seq<CveItem>) -> SendResult

  /** The HTTP status the handler answers with; a cut-off run has none. */
  function StatusCode(r: SyncResult): (code: Option<int>)
    ensures r.Completed? <==> code == Some(200)
    ensures r.SyncFailed? <==> code == Some(500)
  {
    match r
    case Completed(_) => Some(200)
    case SyncFailed => Some(500)
    case SyncUnfinished => None
  }

  /** `items.filter(i => i.isKev === "TRUE").length` */
  function CountKev(items: seq<CveItem>): (n: nat)
    ensures n <= |items|
    ensures n == 0 <==> forall j :: 0 <= j < |items| ==> items[j].isKev != "TRUE"
    decreases |items|
  {
    if |items| == 0 then 0
    else (if items[0].isKev == "TRUE" then 1 else 0) + CountKev(items[1..])
  }

  /** One record counts 1 exactly when it is marked "TRUE". */
  lemma CountKevSingle(item: CveItem)
    ensures CountKev([item]) == if item.isKev == "TRUE" then 1 else 0
  {
    assert [item][1..] == [];
  }

  /** Counting distributes over concatenation; with CountKevSingle this fixes the count of every list. */
  lemma {:induction false} CountKevAppend(a: seq<CveItem>, b: seq<CveItem>)
    ensures CountKev(a + b) == CountKev(a) + CountKev(b)
    decreases |a|
  {
    if |a| == 0 {
      assert a + b == b;
    } else {
      assert (a + b)[1..] == a[1..] + b;
      CountKevAppend(a[1..], b);
    }
  }

  /** The number of records whose CVE id is in `ids`. */
  function CountIn(items: seq<CveItem>, ids: set<string>): (n: nat)
    ensures n <= |items|
    decreases |items|
  {
    if |items| == 0 then 0
    else (if items[0].cveId in ids then 1 else 0) + CountIn(items[1..], ids)
  }

  /** When a record is marked "TRUE" exactly when its id is in `ids`, the KEV count is the number of records with such an id. */
  lemma {:induction false} CountKevIsCatalogMatches(items: seq<CveItem>, ids: set<string>)
    requires forall t :: 0 <= t < |items| ==> (items[t].isKev == "TRUE" <==> items[t].cveId in ids)
    ensures CountKev(items) == CountIn(items, ids)
    decreases |items|
  {
    if |items| > 0 {
      assert items[0].isKev == "TRUE" <==> items[0].cveId in ids;
      assert forall t :: 0 <= t < |items[1..]| ==> items[1..][t] == items[t + 1];
      CountKevIsCatalogMatches(items[1..], ids);
    }
  }

  /** The NVD oracle seen by fetchNvdWindow for one window. */
  function ServerFor(nvd: NvdServer, w: DateWindow): (nat, nat) -> Response<Page>
  {
    (k: nat, i: nat) => nvd(w, k, i)
  }

  /** The DynamoDB oracle seen by batchWriteItems for one window. */
  function StoreFor(store: WindowStore, w: DateWindow): Store
  {
    (b: nat, c: nat, request: seq<CveItem>) => store(w, b, c, request)
  }

  /** What one window adds to the totals: its items are counted, and written when there are any. */
  function Tally(acc: Summary, items: seq<CveItem>, written: nat): Summary
  {
    Summary(acc.totalProcessed + |items|, acc.totalWritten + written, acc.kevMatches + CountKev(items))
  }

  /** The write of one window's items; nothing is sent for an empty window. */
  function WriteOf(store: WindowStore, w: DateWindow, items: seq<CveItem>): WriteRun
  {
    if |items| > 0 then WriteFrom(SenderOf(StoreFor(store, w)), Batches(items), 0) else WriteRun(0, [])
  }

  /** What fetchNvdWindow does for a window, and what writing a window's records does. */
  type WindowFetch = DateWindow -> WindowRun
  type WindowWrite = (DateWindow, seq<CveItem>) -> WriteRun

  function FetchOf(nvd: NvdServer, build: Builder, hasApiKey: bool, maxRequests: nat): WindowFetch
  {
    (w: DateWindow) => WindowFrom(PagesOf(ServerFor(nvd, w)), build, hasApiKey, 0, 0, maxRequests)
  }

  function WriterOf(store: WindowStore): WindowWrite
  {
    (w: DateWindow, items: seq<CveItem>) => WriteOf(store, w, items)
  }

  function Prefixed(delays: seq<int>, rest: SyncRun): SyncRun
  {
    SyncRun(rest.result, delays + rest.delays)
  }

  /** The window loop from window j on, with the totals `acc` gathered so far. */
  function WindowsFrom(fetch: WindowFetch, write: WindowWrite, ws: seq<DateWindow>, j: nat, acc: Summary): (run: SyncRun)
    decreases |ws| - j
  {
    if j >= |ws| then SyncRun(Completed(acc), [])
    else
      var win := fetch(ws[j]);
      match win.outcome
      case Failed => SyncRun(SyncFailed, win.delays)
      case Unfinished => SyncRun(SyncUnfinished, win.delays)
      case Items(items) =>
        var wr := write(ws[j], items);
        Prefixed(win.delays + wr.delays, WindowsFrom(fetch, write, ws, j + 1, Tally(acc, items, wr.written)))
  }

  /** The whole handler once the windows are planned. */
  function Sync(kevFeed: nat -> Response<KevCatalog>, nvd: NvdServer, store: WindowStore, hasApiKey: bool,
                maxRequests: nat, ws: seq<DateWindow>): SyncRun
  {
    var kev := RetryFrom(kevFeed, 0, DEFAULT_RETRIES);
    if !kev.outcome.Fetched? then SyncRun(SyncFailed, kev.delays)
    else
      var build := BuilderOf(KevMapOf(kev.outcome.data.vulnerabilities));
      Prefixed(kev.delays, WindowsFrom(FetchOf(nvd, build, hasApiKey, maxRequests), WriterOf(store), ws, 0, Summary(0, 0, 0)))
  }

  predicate Consistent(s: Summary)
  {
    s.totalWritten <= s.totalProcessed && s.kevMatches <= s.totalProcessed
  }

  /** batchWriteItems never reports more written than it was given. */
  lemma WriterBounded(store: WindowStore, w: DateWindow, items: seq<CveItem>)
    ensures WriterOf(store)(w, items).written <= |items|
  {
    if |items| > 0 {
      BatchesShape(items);
      SizeOfFlatten(Batches(items), 0);
      assert Batches(items)[0..] == Batches(items);
    }
  }

  /** Never more written, and never more KEV matches, than records processed. */
  lemma {:induction false} TotalsBounded(fetch: WindowFetch, write: WindowWrite, ws: seq<DateWindow>, j: nat, acc: Summary)
    requires Consistent(acc)
    requires forall w, items :: write(w, items).written <= |items|
    ensures var run := WindowsFrom(fetch, write, ws, j, acc);
            run.result.Completed? ==> Consistent(run.result.summary) &&
                                      run.result.summary.totalProcessed >= acc.totalProcessed
    decreases |ws| - j
  {
    if j < |ws| && fetch(ws[j]).outcome.Items? {
      var items := fetch(ws[j]).outcome.items;
      TotalsBounded(fetch, write, ws, j + 1, Tally(acc, items, write(ws[j], items).written));
    }
  }

  /** A run completes only when every window's records were fetched. */
  lemma {:induction false} CompletedOnlyIfEveryWindowFetched(fetch: WindowFetch, write: WindowWrite,
                                                            ws: seq<DateWindow>, j: nat, acc: Summary)
    requires WindowsFrom(fetch, write, ws, j, acc).result.Completed?
    ensures forall m :: j <= m < |ws| ==> fetch(ws[m]).outcome.Items?
    decreases |ws| - j
  {
    if j < |ws| {
      var items := fetch(ws[j]).outcome.items;
      CompletedOnlyIfEveryWindowFetched(fetch, write, ws, j + 1, Tally(acc, items, write(ws[j], items).written));
    }
  }

  /**
   * The first window that fails to fetch makes the whole run fail (status
   * 500), whatever the later windows hold; the windows before it were
   * processed in full.
   */
  lemma {:induction false} FailedWindowFailsRun(fetch: WindowFetch, write: WindowWrite,
                                                ws: seq<DateWindow>, j: nat, acc: Summary, m: nat)
    requires j <= m < |ws|
    requires forall k :: j <= k < m ==> fetch(ws[k]).outcome.Items?
    requires fetch(ws[m]).outcome.Failed?
    ensures WindowsFrom(fetch, write, ws, j, acc).result == SyncFailed
    decreases m - j
  {
    if j < m {
      var items := fetch(ws[j]).outcome.items;
      FailedWindowFailsRun(fetch, write, ws, j + 1, Tally(acc, items, write(ws[j], items).written), m);
    }
  }

  /** With no windows (start day not before the end day) the run completes with zero totals once the KEV map loads. */
  lemma NoWindowsZeroTotals(kevFeed: nat -> Response<KevCatalog>, nvd: NvdServer, store: WindowStore,
                            hasApiKey: bool, maxRequests: nat)
    requires RetryFrom(kevFeed, 0, DEFAULT_RETRIES).outcome.Fetched?
    ensures Sync(kevFeed, nvd, store, hasApiKey, maxRequests, []).result == Completed(Summary(0, 0, 0))
  {
  }

  // ----- the totals of a completed run -----

  /** The records of the windows from j on, in order, up to the first window whose fetch yields none. */
  function FetchedFrom(fetch: WindowFetch, ws: seq<DateWindow>, j: nat): seq<CveItem>
    decreases |ws| - j
  {
    if j >= |ws| || !fetch(ws[j]).outcome.Items? then []
    else fetch(ws[j]).outcome.items + FetchedFrom(fetch, ws, j + 1)
  }

  /** The sum of the written counts of the windows from j on, up to the first window whose fetch yields no records. */
  function WrittenFrom(fetch: WindowFetch, write: WindowWrite, ws: seq<DateWindow>, j: nat): nat
    decreases |ws| - j
  {
    if j >= |ws| || !fetch(ws[j]).outcome.Items? then 0
    else write(ws[j], fetch(ws[j]).outcome.items).written + WrittenFrom(fetch, write, ws, j + 1)
  }

  /**
   * The totals of a completed run are sums over the windows: every record
   * fetched is processed, the written count adds up what each window's write
   * reports, and the KEV matches are the KEV-marked records among them.
   */
  lemma {:induction false} CompletedTotals(fetch: WindowFetch, write: WindowWrite, ws: seq<DateWindow>, j: nat, acc: Summary)
    requires WindowsFrom(fetch, write, ws, j, acc).result.Completed?
    ensures var items := FetchedFrom(fetch, ws, j);
            WindowsFrom(fetch, write, ws, j, acc).result.summary ==
              Summary(acc.totalProcessed + |items|, acc.totalWritten + WrittenFrom(fetch, write, ws, j),
                      acc.kevMatches + CountKev(items))
    decreases |ws| - j
  {
    if j < |ws| {
      var items := fetch(ws[j]).outcome.items;
      var next := Tally(acc, items, write(ws[j], items).written);
      CompletedTotals(fetch, write, ws, j + 1, next);
      CountKevAppend(items, FetchedFrom(fetch, ws, j + 1));
    }
  }

  /** When every window's records are made by `build`, so are all the records of the run. */
  lemma {:induction false} FetchedFromBuilt(fetch: WindowFetch, build: Builder, ws: seq<DateWindow>, j: nat)
    requires forall w :: fetch(w).outcome.Items? ==> AllBuilt(build, fetch(w).outcome.items)
    ensures AllBuilt(build, FetchedFrom(fetch, ws, j))
    decreases |ws| - j
  {
    if j < |ws| && fetch(ws[j]).outcome.Items? {
      FetchedFromBuilt(fetch, build, ws, j + 1);
      AllBuiltAppend(build, fetch(ws[j]).outcome.items, FetchedFrom(fetch, ws, j + 1));
    }
  }

  /** A record built with the map of a catalog is marked "TRUE" exactly when its id is one of the catalog's. */
  lemma KevMarkedIffInCatalog(vulns: seq<KevVuln>, items: seq<CveItem>)
    requires AllBuilt(BuilderOf(KevMapOf(vulns)), items)
    ensures forall t :: 0 <= t < |items| ==>
              (items[t].isKev == "TRUE" <==> items[t].cveId in (set v | v in vulns :: v.cveID))
  {
    KevMapKeys(vulns);
    forall t | 0 <= t < |items|
      ensures items[t].isKev == "TRUE" <==> items[t].cveId in (set v | v in vulns :: v.cveID)
    {
      var c :| BuilderOf(KevMapOf(vulns))(c) == items[t];
      assert items[t] == BuildCveItem(c, KevMapOf(vulns));
    }
  }

  /**
   * The totals of a completed handler run: the records processed are all
   * the records fetched, the written count is the sum over the windows, and
   * the KEV matches are the fetched records whose id is in the KEV catalog.
   */
  lemma SyncTotals(kevFeed: nat -> Response<KevCatalog>, nvd: NvdServer, store: WindowStore, hasApiKey: bool,
                   maxRequests: nat, ws: seq<DateWindow>)
    requires Sync(kevFeed, nvd, store, hasApiKey, maxRequests, ws).result.Completed?
    ensures RetryFrom(kevFeed, 0, DEFAULT_RETRIES).outcome.Fetched?
    ensures var vulns := RetryFrom(kevFeed, 0, DEFAULT_RETRIES).outcome.data.vulnerabilities;
            var fetch := FetchOf(nvd, BuilderOf(KevMapOf(vulns)), hasApiKey, maxRequests);
            var items := FetchedFrom(fetch, ws, 0);
            Sync(kevFeed, nvd, store, hasApiKey, maxRequests, ws).result.summary ==
              Summary(|items|, WrittenFrom(fetch, WriterOf(store), ws, 0),
                      CountIn(items, set v | v in vulns :: v.cveID))
  {
    var vulns := RetryFrom(kevFeed, 0, DEFAULT_RETRIES).outcome.data.vulnerabilities;
    var build := BuilderOf(KevMapOf(vulns));
    var fetch := FetchOf(nvd, build, hasApiKey, maxRequests);
    var items := FetchedFrom(fetch, ws, 0);
    CompletedTotals(fetch, WriterOf(store), ws, 0, Summary(0, 0, 0));
    forall w | fetch(w).outcome.Items? ensures AllBuilt(build, fetch(w).outcome.items) {
      WindowItemsBuilt(PagesOf(ServerFor(nvd, w)), build, hasApiKey, 0, 0, maxRequests);
    }
    FetchedFromBuilt(fetch, build, ws, 0);
    KevMarkedIffInCatalog(vulns, items);
    CountKevIsCatalogMatches(items, set v | v in vulns :: v.cveID);
  }

  // ----- a one-window run -----

  /** Three entries that all carry a `cve` give the three records, in order. */
  lemma PageItemsThree(c1: RawCve, c2: RawCve, c3: RawCve, build: Builder)
    ensures PageItems([Entry(Some(c1)), Entry(Some(c2)), Entry(Some(c3))], build) == [build(c1), build(c2), build(c3)]
  {
    var e1, e2, e3 := Entry(Some(c1)), Entry(Some(c2)), Entry(Some(c3));
    PageItemsSingle(e1, build);
    PageItemsSingle(e2, build);
    PageItemsSingle(e3, build);
    PageItemsAppend([e1], [e2], build);
    assert [e1, e2, e3] == [e1, e2] + [e3];
    PageItemsAppend([e1, e2], [e3], build);
  }

  /**
   * A window whose first page request is answered at the first attempt with
   * a page holding all its results is fetched in one request, with no wait.
   */
  lemma OnePageWindow(nvd: NvdServer, build: Builder, hasApiKey: bool, maxRequests: nat, w: DateWindow, page: Page)
    requires maxRequests > 0
    requires Succeeds(nvd(w, 0, 0)) && nvd(w, 0, 0).body.value == page
    requires |page.vulnerabilities| >= NumberOr0(page.totalResults)
    ensures FetchOf(nvd, build, hasApiKey, maxRequests)(w) == WindowRun(Items(PageItems(page.vulnerabilities, build)), [], 1)
  {
    var server := ServerFor(nvd, w);
    assert server(0, 0) == nvd(w, 0, 0);
    FirstAttemptPages(server, 0);
  }

  /** A window of 1 to 25 records whose first send is accepted in full is written in one call, with no wait. */
  lemma OneSliceAccepted(store: WindowStore, w: DateWindow, items: seq<CveItem>)
    requires 0 < |items| <= BATCH_SIZE
    requires store(w, 0, 0, items) == Sent([])
    ensures WriterOf(store)(w, items) == WriteRun(|items|, [])
  {
    BatchesShape(items);
    BatchAt(items, 0);
    assert items[0..|items|] == items;
    var send := SenderOf(StoreFor(store, w));
    assert send(0, items) == BatchRun(false, 1, [], []);
    WriteStep(send, Batches(items), 0);
  }

  /** Three records count one each for those marked "TRUE". */
  lemma CountKevThree(a: CveItem, b: CveItem, c: CveItem)
    ensures CountKev([a, b, c]) ==
              (if a.isKev == "TRUE" then 1 else 0) + (if b.isKev == "TRUE" then 1 else 0) + (if c.isKev == "TRUE" then 1 else 0)
  {
    CountKevSingle(a);
    CountKevSingle(b);
    CountKevSingle(c);
    CountKevAppend([a], [b]);
    assert [a, b, c] == [a, b] + [c];
    CountKevAppend([a, b], [c]);
  }

  /** A record built with a catalog's map is marked "TRUE" exactly when its CVE's id is one of the catalog's. */
  lemma KevMark(vulns: seq<KevVuln>, c: RawCve)
    ensures BuilderOf(KevMapOf(vulns))(c).isKev == "TRUE" <==> c.id in (set v | v in vulns :: v.cveID)
  {
    KevMapKeys(vulns);
    assert BuilderOf(KevMapOf(vulns))(c) == BuildCveItem(c, KevMapOf(vulns));
  }

  /** Built with a catalog's map, three CVEs of which only the first is in the catalog give exactly one KEV match. */
  lemma OneKevOfThree(vulns: seq<KevVuln>, c1: RawCve, c2: RawCve, c3: RawCve)
    requires var ids := set v | v in vulns :: v.cveID;
             c1.id in ids && c2.id !in ids && c3.id !in ids
    ensures var build := BuilderOf(KevMapOf(vulns));
            CountKev([build(c1), build(c2), build(c3)]) == 1
  {
    KevMark(vulns, c1);
    KevMark(vulns, c2);
    KevMark(vulns, c3);
    var build := BuilderOf(KevMapOf(vulns));
    CountKevThree(build(c1), build(c2), build(c3));
  }

  /** A single window whose fetch yields records: the run completes with that window tallied, after its waits. */
  lemma OneWindowRun(fetch: WindowFetch, write: WindowWrite, w: DateWindow, acc: Summary)
    requires fetch(w).outcome.Items?
    ensures var items := fetch(w).outcome.items;
            var wr := write(w, items);
            WindowsFrom(fetch, write, [w], 0, acc) ==
              SyncRun(Completed(Tally(acc, items, wr.written)), fetch(w).delays + wr.delays)
  {
    var items := fetch(w).outcome.items;
    var wr := write(w, items);
    assert WindowsFrom(fetch, write, [w], 1, Tally(acc, items, wr.written)).delays == [];
    assert fetch(w).delays + wr.delays + [] == fetch(w).delays + wr.delays;
  }

  /**
   * One window and one page of three CVEs, answered at the first attempt,
   * with every record accepted at the first send: the run completes with 3
   * processed, 3 written and the KEV marks among the three records, without
   * sleeping.
   */
  lemma OnePageThreeRecords(nvd: NvdServer, store: WindowStore, build: Builder, hasApiKey: bool, maxRequests: nat,
                            w: DateWindow, c1: RawCve, c2: RawCve, c3: RawCve)
    requires maxRequests > 0
    requires Succeeds(nvd(w, 0, 0))
    requires nvd(w, 0, 0).body.value == Page(Some(3), [Entry(Some(c1)), Entry(Some(c2)), Entry(Some(c3))])
    requires forall c: nat, request: seq<CveItem> :: store(w, 0, c, request) == Sent([])
    ensures var items := [build(c1), build(c2), build(c3)];
            WindowsFrom(FetchOf(nvd, build, hasApiKey, maxRequests), WriterOf(store), [w], 0, Summary(0, 0, 0)) ==
              SyncRun(Completed(Summary(3, 3, CountKev(items))), [])
  {
    var items := [build(c1), build(c2), build(c3)];
    PageItemsThree(c1, c2, c3, build);
    OnePageWindow(nvd, build, hasApiKey, maxRequests, w, nvd(w, 0, 0).body.value);
    OneSliceAccepted(store, w, items);
    var fetch, write := FetchOf(nvd, build, hasApiKey, maxRequests), WriterOf(store);
    assert fetch(w) == WindowRun(Items(items), [], 1);
    OneWindowRun(fetch, write, w, Summary(0, 0, 0));
  }

  /**
   * The end-to-end case: one window, one page of three CVEs of which exactly
   * one is in the KEV catalog, everything answered at the first attempt and
   * every record accepted. The run completes with 3 processed, 3 written and
   * 1 KEV match, without sleeping.
   */
  lemma ThreeRecordsOneKev(kevFeed: nat -> Response<KevCatalog>, nvd: NvdServer, store: WindowStore, hasApiKey: bool,
                           maxRequests: nat, w: DateWindow, catalog: KevCatalog, c1: RawCve, c2: RawCve, c3: RawCve)
    requires Succeeds(kevFeed(0)) && kevFeed(0).body.value == catalog
    requires maxRequests > 0
    requires Succeeds(nvd(w, 0, 0))
    requires nvd(w, 0, 0).body.value == Page(Some(3), [Entry(Some(c1)), Entry(Some(c2)), Entry(Some(c3))])
    requires var ids := set v | v in catalog.vulnerabilities :: v.cveID;
             c1.id in ids && c2.id !in ids && c3.id !in ids
    requires forall c: nat, request: seq<CveItem> :: store(w, 0, c, request) == Sent([])
    ensures Sync(kevFeed, nvd, store, hasApiKey, maxRequests, [w]) == SyncRun(Completed(Summary(3, 3, 1)), [])
  {
    RetryStop(kevFeed, 0, DEFAULT_RETRIES, Fetched(catalog));
    var build := BuilderOf(KevMapOf(catalog.vulnerabilities));
    OneKevOfThree(catalog.vulnerabilities, c1, c2, c3);
    OnePageThreeRecords(nvd, store, build, hasApiKey, maxRequests, w, c1, c2, c3);
    PrefixedEmpty(WindowsFrom(FetchOf(nvd, build, hasApiKey, maxRequests), WriterOf(store), [w], 0, Summary(0, 0, 0)));
  }

  // ----- the method -----

  lemma PrefixedPrefixed(a: seq<int>, b: seq<int>, r: SyncRun)
    ensures Prefixed(a, Prefixed(b, r)) == Prefixed(a + b, r)
  {
    assert a + (b + r.delays) == (a + b) + r.delays;
  }

  lemma PrefixedEmpty(r: SyncRun)
    ensures Prefixed([], r) == r
  {
    assert [] + r.delays == r.delays;
  }

  /** `if (items.length > 0) totalWritten += await batchWriteItems(items)` for one window. */
  method WriteWindow(store: WindowStore, w: DateWindow, items: seq<CveItem>) returns (written: nat, wd: seq<int>)
    ensures WriteRun(written, wd) == WriterOf(store)(w, items)
  {
    written, wd := 0, [];
    if |items| > 0 {
      written, wd := BatchWriteItems(StoreFor(store, w), items);
    }
  }

  /**
   * The body of the window loop for window j: fetch its records, then either
   * stop with the error, or count them and write them when there are any.
   */
  method WindowTurn(nvd: NvdServer, store: WindowStore, build: Builder, hasApiKey: bool, maxRequests: nat,
                    windows: seq<DateWindow>, j: nat, acc: Summary)
    returns (stop: bool, result: SyncResult, acc': Summary, d: seq<int>)
    requires j < |windows|
    ensures var fetch, write := FetchOf(nvd, build, hasApiKey, maxRequests), WriterOf(store);
            stop ==> WindowsFrom(fetch, write, windows, j, acc) == SyncRun(result, d)
    ensures var fetch, write := FetchOf(nvd, build, hasApiKey, maxRequests), WriterOf(store);
            !stop ==> WindowsFrom(fetch, write, windows, j, acc) == Prefixed(d, WindowsFrom(fetch, write, windows, j + 1, acc'))
  {
    var outcome, fd, requests := FetchNvdWindow(ServerFor(nvd, windows[j]), build, hasApiKey, maxRequests);
    assert FetchOf(nvd, build, hasApiKey, maxRequests)(windows[j]) == WindowRun(outcome, fd, requests);
    if !outcome.Items? {
      return true, if outcome.Failed? then SyncFailed else SyncUnfinished, acc, fd;
    }
    var items := outcome.items;
    var written, wd := WriteWindow(store, windows[j], items);
    stop, result, d := false, Completed(acc), fd + wd;
    acc' := Summary(acc.totalProcessed + |items|, acc.totalWritten + written, acc.kevMatches + CountKev(items));
    assert acc' == Tally(acc, items, written);
  }

  /** The `for (const window of windows)` loop, with the KEV map loaded. */
  method ProcessWindows(nvd: NvdServer, store: WindowStore, build: Builder, hasApiKey: bool, maxRequests: nat,
                        windows: seq<DateWindow>)
    returns (result: SyncResult, delays: seq<int>)
    ensures SyncRun(result, delays) ==
            WindowsFrom(FetchOf(nvd, build, hasApiKey, maxRequests), WriterOf(store), windows, 0, Summary(0, 0, 0))
  {
    ghost var fetch, write := FetchOf(nvd, build, hasApiKey, maxRequests), WriterOf(store);
    ghost var whole := WindowsFrom(fetch, write, windows, 0, Summary(0, 0, 0));
    var totals := Summary(0, 0, 0);
    delays := [];
    PrefixedEmpty(whole);
    var j := 0;
    while j < |windows|
      invariant j <= |windows|
      invariant whole == Prefixed(delays, WindowsFrom(fetch, write, windows, j, totals))
      decreases |windows| - j
    {
      var stop, r, next, d := WindowTurn(nvd, store, build, hasApiKey, maxRequests, windows, j, totals);
      if stop {
        return r, delays + d;
      }
      PrefixedPrefixed(delays, d, WindowsFrom(fetch, write, windows, j + 1, next));
      totals, delays := next, delays + d;
      j := j + 1;
    }
    assert delays + [] == delays;
    result := Completed(totals);
  }

  method Handler(kevFeed: nat -> Response<KevCatalog>, nvd: NvdServer, store: WindowStore, hasApiKey: bool,
                 maxRequests: nat, startDay: int, endDay: int)
    returns (result: SyncResult, delays: seq<int>, windows: seq<DateWindow>)
    ensures Planned(windows, startDay, endDay, DEFAULT_WINDOW_DAYS)
    ensures !RetryFrom(kevFeed, 0, DEFAULT_RETRIES).outcome.Fetched? ==> result == SyncFailed
    ensures SyncRun(result, delays) == Sync(kevFeed, nvd, store, hasApiKey, maxRequests, windows)
    ensures result.Completed? ==> Consistent(result.summary)
  {
    var kevMap, kevDelays := FetchKevData(kevFeed);
    windows := GetDateWindows(startDay, endDay, DEFAULT_WINDOW_DAYS);
    if kevMap.None? {
      result, delays := SyncFailed, kevDelays;
      return;
    }
    forall w, items ensures WriterOf(store)(w, items).written <= |items| {
      WriterBounded(store, w, items);
    }
    TotalsBounded(FetchOf(nvd, BuilderOf(kevMap.value), hasApiKey, maxRequests), WriterOf(store), windows, 0, Summary(0, 0, 0));
    var windowDelays;
    result, windowDelays := ProcessWindows(nvd, store, BuilderOf(kevMap.value), hasApiKey, maxRequests, windows);
    delays := kevDelays + windowDelays;
  }
}
