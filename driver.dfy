/** The page pool of packages/core/src/driver/index.ts. Browser tabs are abstract
    identifiers; the browser itself is reduced to whether it was launched, its
    initial tab, and a counter of tabs opened since. The request queue is a fastq
    queue with `pagesConcurrency` workers: a worker takes a page, hands it to the
    requester, and stays busy until that page is released. */
module Driver {
  import opened Common

  /** A browser tab: the one the browser starts with, or the n-th opened one. */
  datatype Page = InitialTab | NewTab(n: nat)

  /** Whom a queued request was answered with, in answer order. */
  datatype Grant = Grant(request: nat, page: Page)

  class DriverManager {
    /** `pagesConcurrency`, the number of queue workers. */
    const concurrency: nat
    /** Whether `puppeteer.launch` succeeded during init. */
    const browserLaunched: bool

    var isOpenFirst: bool
    var freePagePool: seq<Page>
    /** The keys of `activedPagePool`: pages held by a busy worker. */
    var activedPagePool: set<Page>
    /** Tabs opened with `browser.newPage()` so far. */
    var openedTabs: nat
    /** Pages closed by a forced release, in order. */
    var closedPages: seq<Page>

    /** Busy queue workers, queued requests, and workers whose job has ended but
        whose completion the queue has not yet processed. */
    var running: nat
    var waiting: seq<nat>
    var finishing: nat
    /** Requests answered with a page, and requests whose worker failed before
        answering (their promise never settles). */
    var granted: seq<Grant>
    var stalled: seq<nat>

    /** The queue never runs more workers than its concurrency, keeps every worker
        busy while requests wait, and every active page or finishing job belongs to
        a distinct busy worker. */
    predicate Valid()
      reads this
    {
      && running <= concurrency
      && (waiting != [] ==> running == concurrency)
      && |activedPagePool| + finishing <= running
    }

    constructor (concurrency: nat, browserLaunched: bool)
      requires concurrency >= 1
      ensures Valid()
      ensures this.concurrency == concurrency && this.browserLaunched == browserLaunched
      ensures isOpenFirst && freePagePool == [] && activedPagePool == {} && openedTabs == 0
      ensures closedPages == [] && running == 0 && waiting == [] && finishing == 0
      ensures granted == [] && stalled == []
    {
      this.concurrency := concurrency;
      this.browserLaunched := browserLaunched;
      isOpenFirst := true;
      freePagePool := [];
      activedPagePool := {};
      openedTabs := 0;
      closedPages := [];
      running := 0;
      waiting := [];
      finishing := 0;
      granted := [];
      stalled := [];
    }

    /** getPage: the head of the free pool if there is one; otherwise the browser's
        initial tab the first time and a new tab afterwards. Without a browser the
        call fails, after `isOpenFirst` has been cleared. */
    method GetPage() returns (r: Result<Page, string>)
      modifies this`freePagePool, this`isOpenFirst, this`openedTabs
      ensures old(freePagePool) != [] ==>
        r == Ok(old(freePagePool)[0]) && freePagePool == old(freePagePool)[1..] &&
        isOpenFirst == old(isOpenFirst) && openedTabs == old(openedTabs)
      ensures old(freePagePool) == [] ==> freePagePool == [] && !isOpenFirst
      ensures old(freePagePool) == [] && !browserLaunched ==> r.Err? && openedTabs == old(openedTabs)
      ensures old(freePagePool) == [] && browserLaunched && old(isOpenFirst) ==>
        r == Ok(InitialTab) && openedTabs == old(openedTabs)
      ensures old(freePagePool) == [] && browserLaunched && !old(isOpenFirst) ==>
        r == Ok(NewTab(old(openedTabs))) && openedTabs == old(openedTabs) + 1
    {
      if freePagePool != [] {
        r := Ok(freePagePool[0]);
        freePagePool := freePagePool[1..];
        return;
      }
      if isOpenFirst {
        isOpenFirst := false;
        if !browserLaunched {
          return Err("TypeError");
        }
        r := Ok(InitialTab);
      } else {
        if !browserLaunched {
          return Err("TypeError");
        }
        r := Ok(NewTab(openedTabs));
        openedTabs := openedTabs + 1;
      }
    }

    /** The page getPage hands out next, or None when it would fail. */
    function NextPage(): (r: Option<Page>)
      reads this
      ensures r.None? <==> freePagePool == [] && !browserLaunched
      ensures freePagePool != [] ==> r == Some(freePagePool[0])
      ensures freePagePool == [] && r.Some? ==> (r.value == InitialTab <==> isOpenFirst)
    {
      if freePagePool != [] then Some(freePagePool[0])
      else if !browserLaunched then None
      else if isOpenFirst then Some(InitialTab)
      else Some(NewTab(openedTabs))
    }

    /** A worker starts on `request`: it takes a page and answers with it, keeping
        the page active; if taking a page fails its job ends at once. */
    method StartWorker(request: nat)
      requires running < concurrency && |activedPagePool| + finishing <= running
      modifies this
      ensures running == old(running) + 1
      ensures freePagePool == if old(freePagePool) == [] then [] else old(freePagePool)[1..]
      ensures waiting == old(waiting) && closedPages == old(closedPages)
      ensures !old(isOpenFirst) ==> !isOpenFirst
      ensures |activedPagePool| + finishing <= running
      ensures old(NextPage()).Some? ==>
        granted == old(granted) + [Grant(request, old(NextPage()).value)] &&
        activedPagePool == old(activedPagePool) + {old(NextPage()).value} &&
        stalled == old(stalled) && finishing == old(finishing)
      ensures old(NextPage()).None? ==>
        granted == old(granted) && activedPagePool == old(activedPagePool) &&
        stalled == old(stalled) + [request] && finishing == old(finishing) + 1
    {
      var page := GetPage();
      running := running + 1;
      if page.Ok? {
        activedPagePool := activedPagePool + {page.value};
        granted := granted + [Grant(request, page.value)];
      } else {
        stalled := stalled + [request];
        finishing := finishing + 1;
      }
    }

    /** requestPage: a forced request takes a page directly, outside the queue; any
        other request is queued and answered when a worker takes it. */
    method RequestPage(force: bool, request: nat) returns (r: Option<Result<Page, string>>)
      requires Valid()
      modifies this
      ensures Valid()
      ensures force <==> r.Some?
      ensures force ==> (running == old(running) && waiting == old(waiting) &&
                         granted == old(granted) && activedPagePool == old(activedPagePool))
      ensures force ==> ((r.value.Ok? <==> old(NextPage()).Some?) &&
                         (r.value.Ok? ==> r.value.value == old(NextPage()).value))
      ensures force || old(running) < concurrency ==>
        freePagePool == if old(freePagePool) == [] then [] else old(freePagePool)[1..]
      ensures !force && old(running) < concurrency ==> waiting == old(waiting) && running == old(running) + 1
      ensures !force && old(running) < concurrency && old(NextPage()).Some? ==>
        granted == old(granted) + [Grant(request, old(NextPage()).value)] &&
        activedPagePool == old(activedPagePool) + {old(NextPage()).value} &&
        stalled == old(stalled) && finishing == old(finishing)
      ensures !force && old(running) < concurrency && old(NextPage()).None? ==>
        stalled == old(stalled) + [request] && finishing == old(finishing) + 1
      ensures !force && old(running) == concurrency ==>
        waiting == old(waiting) + [request] && running == old(running) && granted == old(granted) &&
        freePagePool == old(freePagePool) && isOpenFirst == old(isOpenFirst) &&
        activedPagePool == old(activedPagePool) && finishing == old(finishing) && stalled == old(stalled)
      ensures !old(isOpenFirst) ==> !isOpenFirst
    {
      if force {
        var page := GetPage();
        return Some(page);
      }
      if running < concurrency {
        StartWorker(request);
      } else {
        waiting := waiting + [request];
      }
      r := None;
    }

    /** releasePage: a forced release closes the page, any other returns it to the
        free pool; if a worker holds the page, its entry is removed and the worker's
        job ends. */
    method ReleasePage(page: Page, force: bool)
      requires Valid()
      modifies this`freePagePool, this`closedPages, this`activedPagePool, this`finishing
      ensures Valid()
      ensures force ==> closedPages == old(closedPages) + [page] && freePagePool == old(freePagePool)
      ensures !force ==> freePagePool == old(freePagePool) + [page] && closedPages == old(closedPages)
      ensures page in old(activedPagePool) ==>
        activedPagePool == old(activedPagePool) - {page} && finishing == old(finishing) + 1
      ensures page !in old(activedPagePool) ==>
        activedPagePool == old(activedPagePool) && finishing == old(finishing)
    {
      if force {
        closedPages := closedPages + [page];
      } else {
        freePagePool := freePagePool + [page];
      }
      if page in activedPagePool {
        activedPagePool := activedPagePool - {page};
        finishing := finishing + 1;
      }
    }

    /** The queue processes one finished job: the worker becomes free and the
        oldest waiting request, if any, is started on it. */
    method WorkerDone()
      requires Valid() && finishing > 0
      modifies this
      ensures Valid()
      ensures old(waiting) == [] ==> running == old(running) - 1 && finishing == old(finishing) - 1
      ensures old(waiting) != [] ==> waiting == old(waiting)[1..] && running == old(running)
      ensures old(waiting) != [] && old(NextPage()).Some? ==>
        granted == old(granted) + [Grant(old(waiting)[0], old(NextPage()).value)]
      ensures old(waiting) != [] && old(NextPage()).None? ==>
        stalled == old(stalled) + [old(waiting)[0]]
      ensures !old(isOpenFirst) ==> !isOpenFirst
    {
      finishing := finishing - 1;
      running := running - 1;
      if waiting != [] {
        var next := waiting[0];
        waiting := waiting[1..];
        StartWorker(next);
      }
    }
  }

  /** With one worker, a queued request waits until the page of the first one is
      released, and is then answered with that very page. */
  method ReleasedPageIsReused() returns (granted: seq<Grant>)
    ensures granted == [Grant(1, InitialTab), Grant(2, InitialTab)]
  {
    var d := new DriverManager(1, true);
    var first := d.RequestPage(false, 1);
    assert d.granted == [Grant(1, InitialTab)] && d.running == 1;
    var second := d.RequestPage(false, 2);
    assert d.waiting == [2] && d.granted == [Grant(1, InitialTab)];
    d.ReleasePage(InitialTab, false);
    assert d.freePagePool == [InitialTab] && d.finishing == 1;
    d.WorkerDone();
    assert d.waiting == [];
    granted := d.granted;
  }
}
