/**
  `main` of `schools.py`: read the first listing page from a saved HTML file,
  then, if that page has a next-page link, walk the rest of the chain on the
  web and append what it gathers. Records use the plain layout (`name`,
  `link`, `description`) and carry no district.
 */
module LocalThenWeb {
  import opened Wrappers
  import opened Listing
  import opened Pagination

  /** The records written to `schools_data.json`, and the web walk when one ran. */
  datatype Output = Output(schools: seq<Record>, web: Option<WalkResult>)

  function ScrapeLocalThenWeb(local: ListingPage, site: Site): (r: Output)
    ensures r.web.Some? <==> NextPageUrl(local.next).Some?
    ensures |r.schools| >= TitledCount(local.boxes)
    ensures r.schools[..TitledCount(local.boxes)] == ExtractRecords(PlainLayout, local.boxes)
  {
    var (first, next) := ScrapeFile(local);
    match next
    case None => Output(first, None)
    case Some(url) =>
      var walked := Walk(site, PlainLayout, None, url, {});
      Output(first + walked.records, Some(walked))
  }

  predicate PlainRecords(records: seq<Record>)
  {
    forall i :: 0 <= i < |records| ==> records[i].Keys == {"name", "link", "description"}
  }

  /** A walk without a district yields records with exactly the plain layout's keys. */
  lemma {:induction false} WalkKeepsPlainKeys(site: Site, url: string, visited: set<string>)
    ensures PlainRecords(Walk(site, PlainLayout, None, url, visited).records)
    decreases |site.Keys - visited|
  {
    var r := Walk(site, PlainLayout, None, url, visited);
    if url != "" && url !in visited && FetchPage(site, url).Served? {
      var page := FetchPage(site, url).page;
      var here := PageRecords(PlainLayout, None, page);
      if NextPageUrl(page.next).Some? {
        var next := NextPageUrl(page.next).value;
        UnvisitedShrinks(site, visited, url);
        WalkKeepsPlainKeys(site, next, visited + {url});
        var rest := Walk(site, PlainLayout, None, next, visited + {url});
        assert r.records == here + rest.records;
        forall i | 0 <= i < |r.records| ensures r.records[i].Keys == {"name", "link", "description"} {
          if i < |here| {
            assert r.records[i] == here[i];
          } else {
            assert r.records[i] == rest.records[i - |here|];
          }
        }
      }
    }
  }

  /**
    The output is the local page's records followed by the records of a chain
    of web pages that starts at the local page's next link and reads no page
    twice; no web page is requested when the local page has no next link.
    Every record has exactly the keys `name`, `link` and `description`.
   */
  lemma LocalThenWebIsOneChain(local: ListingPage, site: Site)
    ensures var r := ScrapeLocalThenWeb(local, site);
      && PlainRecords(r.schools)
      && (r.web.None? ==> r.schools == ExtractRecords(PlainLayout, local.boxes))
      && (r.web.Some? ==>
            && IsChain(site, NextPageUrl(local.next).value, r.web.value.pages)
            && (forall i, j :: 0 <= i < j < |r.web.value.pages| ==> r.web.value.pages[i] != r.web.value.pages[j])
            && r.schools == ExtractRecords(PlainLayout, local.boxes)
                            + ChainRecords(site, PlainLayout, None, r.web.value.pages))
  {
    var r := ScrapeLocalThenWeb(local, site);
    var first := ExtractRecords(PlainLayout, local.boxes);
    if NextPageUrl(local.next).Some? {
      var url := NextPageUrl(local.next).value;
      WalkReadsChainOnce(site, PlainLayout, None, url, {});
      WalkKeepsPlainKeys(site, url, {});
      var rest := Walk(site, PlainLayout, None, url, {});
      forall i | 0 <= i < |r.schools| ensures r.schools[i].Keys == {"name", "link", "description"} {
        if i < |first| {
          assert r.schools[i] == first[i];
        } else {
          assert r.schools[i] == rest.records[i - |first|];
        }
      }
    }
  }
}
