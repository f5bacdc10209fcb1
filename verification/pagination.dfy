/**
  The pagination walk: `scrape_schools_from_district` (bulk extractor) and
  `scrape_all_schools_from_url` (`schools.py`). Fetch a page, keep its records,
  follow the next-page link after a one-second pause, and stop when there is
  no link or a request fails, keeping what was gathered.

  The web site is a finite map from URL to what a request for it returns; a
  URL outside the map fails like a request that raises.

  The loops in the source remember no visited URL, so a chain whose next-page
  links come back to an earlier page never ends. `WalkAsWritten` is that loop
  with a fuel bound standing in for "runs forever"; `Walk` is the same loop
  with a visited set, which is what the drivers use.
 */
module Pagination {
  import opened Wrappers
  import opened Listing

  /** The outcome of requesting one listing URL. */
  datatype Fetch = Unreachable | Served(page: ListingPage)

  type Site = map<string, Fetch>

  function FetchPage(site: Site, url: string): Fetch
  {
    if url in site then site[url] else Unreachable
  }

  /** Why a walk ended. */
  datatype Stop =
    | NoNextPage      // the last page had no next link (or the start URL was empty)
    | FetchFailed     // a request raised; the records so far are kept
    | RepeatedUrl     // the next link pointed at a page already visited
    | OutOfFuel       // the fuel bound of the as-written loop ran out

  /** The records gathered, the URLs of the pages read, the pauses taken, and why it stopped. */
  datatype WalkResult = Walked(records: seq<Record>, pages: seq<string>, sleeps: nat, stop: Stop)

  /** The bulk extractor stamps `school_district` on every record of a page; `schools.py` does not. */
  function Stamp(records: seq<Record>, district: Option<string>): (r: seq<Record>)
    ensures |r| == |records|
    ensures district.None? ==> r == records
    ensures district.Some? ==> forall i :: 0 <= i < |r| ==>
              && r[i].Keys == records[i].Keys + {DistrictKey}
              && r[i][DistrictKey] == district.value
              && (forall k :: k in records[i] && k != DistrictKey ==> r[i][k] == records[i][k])
  {
    match district
    case None => records
    case Some(d) => seq(|records|, i requires 0 <= i < |records| => records[i][DistrictKey := d])
  }

  /** The records one listing page contributes. */
  function PageRecords(layout: Layout, district: Option<string>, page: ListingPage): seq<Record>
  {
    Stamp(ExtractRecords(layout, page.boxes), district)
  }

  /**
    The while loop as written: it follows next links with no memory of the
    pages it has seen. It reads one page per unit of fuel; running out means
    every unit went on a page, and a repeated page is never noticed.
   */
  function WalkAsWritten(site: Site, layout: Layout, district: Option<string>, url: string, fuel: nat): (r: WalkResult)
    ensures |r.pages| <= fuel
    ensures r.stop == OutOfFuel ==> |r.pages| == fuel
    ensures r.stop != RepeatedUrl
    ensures |r.pages| == r.sleeps + (if r.stop == NoNextPage && r.pages != [] then 1 else 0)
    decreases fuel
  {
    if url == "" then Walked([], [], 0, NoNextPage)
    else if fuel == 0 then Walked([], [], 0, OutOfFuel)
    else match FetchPage(site, url)
      case Unreachable => Walked([], [], 0, FetchFailed)
      case Served(page) =>
        var here := PageRecords(layout, district, page);
        match NextPageUrl(page.next)
        case None => Walked(here, [url], 0, NoNextPage)
        case Some(next) =>
          var rest := WalkAsWritten(site, layout, district, next, fuel - 1);
          Walked(here + rest.records, [url] + rest.pages, rest.sleeps + 1, rest.stop)
  }

  lemma UnvisitedShrinks(site: Site, visited: set<string>, url: string)
    requires url in site && url !in visited
    ensures |site.Keys - (visited + {url})| == |site.Keys - visited| - 1
  {
    assert site.Keys - visited == (site.Keys - (visited + {url})) + {url};
  }

  /**
    The loop with a visited set: a next link to a page already read ends the
    walk. It reads every page at most once, so it ends on every site.
   */
  function Walk(site: Site, layout: Layout, district: Option<string>, url: string, visited: set<string>): (r: WalkResult)
    ensures r.pages == [] <==> url == "" || url in visited || FetchPage(site, url).Unreachable?
    ensures r.pages != [] ==> r.pages[0] == url && url !in visited
    decreases |site.Keys - visited|
  {
    if url == "" then Walked([], [], 0, NoNextPage)
    else if url in visited then Walked([], [], 0, RepeatedUrl)
    else match FetchPage(site, url)
      case Unreachable => Walked([], [], 0, FetchFailed)
      case Served(page) =>
        var here := PageRecords(layout, district, page);
        match NextPageUrl(page.next)
        case None => Walked(here, [url], 0, NoNextPage)
        case Some(next) =>
          UnvisitedShrinks(site, visited, url);
          var rest := Walk(site, layout, district, next, visited + {url});
          Walked(here + rest.records, [url] + rest.pages, rest.sleeps + 1, rest.stop)
  }

  /** The next-page URL of a served page, if it has one. */
  function NextOf(site: Site, url: string): Option<string>
  {
    match FetchPage(site, url)
    case Served(page) => NextPageUrl(page.next)
    case Unreachable => None
  }

  /** `pages` is a run of served pages starting at `url`, each one the next link of the one before. */
  predicate IsChain(site: Site, url: string, pages: seq<string>)
    decreases |pages|
  {
    || pages == []
    || (&& pages[0] == url && url != ""
        && FetchPage(site, url).Served?
        && (|pages| == 1 || (NextOf(site, url) == Some(pages[1]) && IsChain(site, pages[1], pages[1..]))))
  }

  /** The records of the given pages, concatenated in that order. */
  function ChainRecords(site: Site, layout: Layout, district: Option<string>, pages: seq<string>): seq<Record>
  {
    if pages == [] then []
    else
      var here := match FetchPage(site, pages[0])
        case Served(page) => PageRecords(layout, district, page)
        case Unreachable => [];
      here + ChainRecords(site, layout, district, pages[1..])
  }

  /** The URL the loop holds after reading `pages`: the start URL, or the last page's next link ("" for none). */
  function Pending(site: Site, url: string, pages: seq<string>): string
  {
    if pages == [] then url else NextOf(site, pages[|pages| - 1]).GetOr("")
  }

  /**
    The walk reads a chain of pages, never one twice and never one visited
    before, at most one per page of the site, and returns their records
    concatenated in the order read.
   */
  lemma {:induction false} WalkReadsChainOnce(site: Site, layout: Layout, district: Option<string>, url: string, visited: set<string>)
    ensures var r := Walk(site, layout, district, url, visited);
      && IsChain(site, url, r.pages)
      && (forall i, j :: 0 <= i < j < |r.pages| ==> r.pages[i] != r.pages[j])
      && (forall i :: 0 <= i < |r.pages| ==> r.pages[i] !in visited)
      && |r.pages| <= |site.Keys - visited|
      && r.records == ChainRecords(site, layout, district, r.pages)
    decreases |site.Keys - visited|
  {
    var r := Walk(site, layout, district, url, visited);
    if url != "" && url !in visited && FetchPage(site, url).Served? {
      var page := FetchPage(site, url).page;
      if NextPageUrl(page.next).Some? {
        var next := NextPageUrl(page.next).value;
        UnvisitedShrinks(site, visited, url);
        WalkReadsChainOnce(site, layout, district, next, visited + {url});
        var rest := Walk(site, layout, district, next, visited + {url});
        assert r.pages == [url] + rest.pages;
        assert r.pages[1..] == rest.pages;
      } else {
        assert r.pages == [url];
        assert url in site.Keys - visited;
      }
    }
  }

  /**
    Why the walk stopped, in terms of the URL it held at that point: no URL
    (no next link), a URL whose request fails, or a URL already read.
   */
  lemma {:induction false} WalkStopsOnlyWhen(site: Site, layout: Layout, district: Option<string>, url: string, visited: set<string>)
    ensures var r := Walk(site, layout, district, url, visited);
      var pending := Pending(site, url, r.pages);
      && (r.stop == NoNextPage <==> pending == "")
      && (r.stop == FetchFailed ==> FetchPage(site, pending).Unreachable?)
      && (r.stop == RepeatedUrl ==> pending in visited || pending in r.pages)
      && (pending != "" && pending !in visited && pending !in r.pages ==> FetchPage(site, pending).Unreachable?)
    decreases |site.Keys - visited|
  {
    var r := Walk(site, layout, district, url, visited);
    if url != "" && url !in visited && FetchPage(site, url).Served? {
      var page := FetchPage(site, url).page;
      if NextPageUrl(page.next).Some? {
        var next := NextPageUrl(page.next).value;
        UnvisitedShrinks(site, visited, url);
        WalkStopsOnlyWhen(site, layout, district, next, visited + {url});
        var rest := Walk(site, layout, district, next, visited + {url});
        assert r.pages == [url] + rest.pages;
        assert Pending(site, url, r.pages) == Pending(site, next, rest.pages);
      }
    }
  }

  /** One politeness pause per page read that had a next link: all of them but a last page without one. */
  lemma {:induction false} OnePausePerFollowedLink(site: Site, layout: Layout, district: Option<string>, url: string, visited: set<string>)
    ensures var r := Walk(site, layout, district, url, visited);
      r.sleeps + (if r.stop == NoNextPage && r.pages != [] then 1 else 0) == |r.pages|
    decreases |site.Keys - visited|
  {
    if url != "" && url !in visited && FetchPage(site, url).Served? {
      var page := FetchPage(site, url).page;
      if NextPageUrl(page.next).Some? {
        UnvisitedShrinks(site, visited, url);
        OnePausePerFollowedLink(site, layout, district, NextPageUrl(page.next).value, visited + {url});
      }
    }
  }

  predicate AllStamped(records: seq<Record>, name: string)
  {
    forall i :: 0 <= i < |records| ==> DistrictKey in records[i] && records[i][DistrictKey] == name
  }

  /** In the bulk extractor every record of a walk carries the district's name. */
  lemma {:induction false} WalkStampsDistrict(site: Site, layout: Layout, name: string, url: string, visited: set<string>)
    ensures AllStamped(Walk(site, layout, Some(name), url, visited).records, name)
    decreases |site.Keys - visited|
  {
    var r := Walk(site, layout, Some(name), url, visited);
    if url != "" && url !in visited && FetchPage(site, url).Served? {
      var page := FetchPage(site, url).page;
      if NextPageUrl(page.next).Some? {
        var next := NextPageUrl(page.next).value;
        UnvisitedShrinks(site, visited, url);
        WalkStampsDistrict(site, layout, name, next, visited + {url});
        var here := PageRecords(layout, Some(name), page);
        var rest := Walk(site, layout, Some(name), next, visited + {url});
        assert r.records == here + rest.records;
        forall i | 0 <= i < |r.records|
          ensures DistrictKey in r.records[i] && r.records[i][DistrictKey] == name
        {
          if i < |here| {
            assert r.records[i] == here[i];
          } else {
            assert r.records[i] == rest.records[i - |here|];
          }
        }
      }
    }
  }

  /** On a chain that does not come back to a page already read, the guard never fires and both loops agree. */
  lemma {:induction false} WalkAgreesWithSourceWithoutRepeats(site: Site, layout: Layout, district: Option<string>, url: string, visited: set<string>, fuel: nat)
    requires Walk(site, layout, district, url, visited).stop != RepeatedUrl
    requires fuel > |Walk(site, layout, district, url, visited).pages|
    ensures WalkAsWritten(site, layout, district, url, fuel) == Walk(site, layout, district, url, visited)
    decreases |site.Keys - visited|
  {
    if url != "" && url !in visited && FetchPage(site, url).Served? {
      var page := FetchPage(site, url).page;
      if NextPageUrl(page.next).Some? {
        UnvisitedShrinks(site, visited, url);
        WalkAgreesWithSourceWithoutRepeats(site, layout, district, NextPageUrl(page.next).value, visited + {url}, fuel - 1);
      }
    }
  }

  /** Every URL of `pages` is served, links to a next page, and that link stays inside `pages`. */
  predicate IsClosedLoop(site: Site, pages: set<string>)
  {
    forall p :: p in pages ==> p != "" && NextOf(site, p).Some? && NextOf(site, p).value in pages
  }

  /** From a page of a closed loop the as-written loop never stops: every fuel bound runs out. */
  lemma {:induction false} ClosedLoopNeverEnds(site: Site, layout: Layout, district: Option<string>, loop: set<string>, url: string, fuel: nat)
    requires IsClosedLoop(site, loop) && url in loop
    ensures WalkAsWritten(site, layout, district, url, fuel).stop == OutOfFuel
    decreases fuel
  {
    if fuel > 0 {
      ClosedLoopNeverEnds(site, layout, district, loop, NextOf(site, url).value, fuel - 1);
    }
  }

  /** When the guarded walk cuts a repeated URL, the pages it read, with the visited ones, hold a closed loop. */
  lemma {:induction false} RepeatMeansLoop(site: Site, layout: Layout, district: Option<string>, url: string, visited: set<string>)
    requires Walk(site, layout, district, url, visited).stop == RepeatedUrl
    ensures var r := Walk(site, layout, district, url, visited);
      && (r.pages == [] ==> url in visited)
      && (r.pages != [] ==> r.pages[0] == url)
      && forall p :: p in r.pages ==> p != "" && NextOf(site, p).Some? && (NextOf(site, p).value in r.pages || NextOf(site, p).value in visited)
    decreases |site.Keys - visited|
  {
    var r := Walk(site, layout, district, url, visited);
    if url != "" && url !in visited && FetchPage(site, url).Served? {
      var page := FetchPage(site, url).page;
      var next := NextPageUrl(page.next).value;
      UnvisitedShrinks(site, visited, url);
      RepeatMeansLoop(site, layout, district, next, visited + {url});
      var rest := Walk(site, layout, district, next, visited + {url});
      assert r.pages == [url] + rest.pages;
    }
  }

  /**
    The source's loop on a chain that comes back to a page: wherever the
    guarded walk (started with nothing visited) cuts a repeated URL, the
    loop as written runs out of every fuel bound, i.e. never returns.
   */
  lemma RepeatedUrlNeverEndsAsWritten(site: Site, layout: Layout, district: Option<string>, url: string, fuel: nat)
    requires Walk(site, layout, district, url, {}).stop == RepeatedUrl
    ensures WalkAsWritten(site, layout, district, url, fuel).stop == OutOfFuel
  {
    RepeatMeansLoop(site, layout, district, url, {});
    var r := Walk(site, layout, district, url, {});
    var loop := set p | p in r.pages;
    ClosedLoopNeverEnds(site, layout, district, loop, url, fuel);
  }

  /** A page whose next link points at itself: the smallest chain the source never leaves. */
  lemma SelfLinkedPage(layout: Layout, district: Option<string>, fuel: nat)
    ensures var site := map["p" := Served(ListingPage([], Some("p")))];
      && WalkAsWritten(site, layout, district, "p", fuel).stop == OutOfFuel
      && Walk(site, layout, district, "p", {}) == Walked([], ["p"], 1, RepeatedUrl)
  {
    var site := map["p" := Served(ListingPage([], Some("p")))];
    ClosedLoopNeverEnds(site, layout, district, {"p"}, "p", fuel);
  }

  /** `scrape_all_schools_from_file` reads the one page the walk would read first, and hands over the URL the walk would follow. */
  lemma ScrapeFileIsFirstStep(site: Site, url: string, page: ListingPage)
    requires url != "" && FetchPage(site, url) == Served(page)
    ensures var r := Walk(site, PlainLayout, None, url, {});
      && |r.pages| >= 1 && r.pages[0] == url
      && r.records[..|ScrapeFile(page).0|] == ScrapeFile(page).0
      && (ScrapeFile(page).1.None? <==> r.pages == [url] && r.stop == NoNextPage)
      && (|r.pages| >= 2 ==> ScrapeFile(page).1 == Some(r.pages[1]))
  {
    var r := Walk(site, PlainLayout, None, url, {});
    if NextPageUrl(page.next).Some? {
      UnvisitedShrinks(site, {}, url);
      WalkReadsChainOnce(site, PlainLayout, None, NextPageUrl(page.next).value, {url});
    }
  }
}
