/**
  The bulk extractor's `main`: optionally cut the district list to its first
  `limit` entries, walk each district's listing chain (skipping districts
  without a URL), save the list gathered so far after every tenth district,
  pause after every district walked, save once more at the end, and print a
  per-district school count. Saves and pauses are events.
 */
module Districts {
  import opened Wrappers
  import opened Listing
  import opened Pagination
  import Report
  import opened EventLog

  /** One entry of `districts.json`. */
  type District = map<string, string>

  /** Progress is saved after every this many districts (1-based index). */
  const SaveEvery := 10

  /** Districts shown in the count summary. */
  const SummaryRows := 10

  /** `district.get('name', 'Unknown')` */
  function NameOf(d: District): string
  {
    if "name" in d then d["name"] else "Unknown"
  }

  /** `district.get('url', '')` */
  function UrlOf(d: District): string
  {
    if "url" in d then d["url"] else ""
  }

  /** The answer to the limit prompt: empty, not an integer, or an integer. */
  datatype LimitInput = NoLimit | NotANumber | Limit(n: int)

  /** Where Python's `s[:k]` ends in a list of length `n`; a negative `k` counts from the end. */
  function SliceEnd(n: nat, k: int): (e: nat)
    ensures e <= n
    ensures k >= 0 ==> e == if k < n then k else n
    ensures k < 0 ==> e == if n + k > 0 then n + k else 0
  {
    if k >= 0 then (if k < n then k else n)
    else if n + k > 0 then n + k else 0
  }

  /**
    `districts[:limit]` for an integer answer; the whole list for an empty
    answer, and for one that is not an integer ("Processing all districts").
   */
  function ApplyLimit(districts: seq<District>, input: LimitInput): (r: seq<District>)
    ensures r <= districts
    ensures !input.Limit? ==> r == districts
    ensures input.Limit? && input.n >= |districts| ==> r == districts
    ensures input.Limit? && 0 <= input.n ==> |r| == if input.n < |districts| then input.n else |districts|
    ensures input.Limit? && input.n < 0 ==> |r| + (if -input.n < |districts| then -input.n else |districts|) == |districts|
  {
    if input.Limit? then districts[..SliceEnd(|districts|, input.n)] else districts
  }

  /** `scrape_schools_from_district(url, name)` as the loop sees it. */
  type Scraper = (string, string) -> seq<Record>

  /** The scraper of the source: the pagination walk over the site, stamping the district's name. */
  function SiteScraper(site: Site): Scraper
  {
    (url: string, name: string) => Walk(site, BulkLayout, Some(name), url, {}).records
  }

  /** The schools one district contributes: nothing without a URL, else what its walk gathers. */
  function DistrictSchools(scrape: Scraper, d: District): seq<Record>
  {
    if UrlOf(d) == "" then [] else scrape(UrlOf(d), NameOf(d))
  }

  /** `all_schools` after the first `upto` districts. */
  function Gathered(scrape: Scraper, districts: seq<District>, upto: nat): seq<Record>
    requires upto <= |districts|
  {
    if upto == 0 then [] else Gathered(scrape, districts, upto - 1) + DistrictSchools(scrape, districts[upto - 1])
  }

  /** Side effects of the district loop, numbered by the 1-based district index. */
  datatype Event =
    | SaveProgress(index: nat, snapshot: seq<Record>)  // `save_schools_data` every tenth district
    | Pause(index: nat)                                // `time.sleep(2)` after a district
    | Save(snapshot: seq<Record>)                      // the final `save_schools_data`

  /** The events of the `k`-th district (1-based): none when it has no URL. */
  function DistrictEvents(scrape: Scraper, districts: seq<District>, k: nat): seq<Event>
    requires 1 <= k <= |districts|
  {
    if UrlOf(districts[k - 1]) == "" then []
    else
      (if k % SaveEvery == 0 then [SaveProgress(k, Gathered(scrape, districts, k))] else [])
      + [Pause(k)]
  }

  /** The events of each district, by 1-based position. */
  function EventsAt(scrape: Scraper, districts: seq<District>): nat -> seq<Event>
  {
    (k: nat) => if 1 <= k <= |districts| then DistrictEvents(scrape, districts, k) else []
  }

  /** The events of the first `upto` districts. */
  function Log(scrape: Scraper, districts: seq<District>, upto: nat): seq<Event>
    requires upto <= |districts|
  {
    Concat(EventsAt(scrape, districts), 1, upto + 1)
  }

  /** What district `k` adds to the schools and to the log, spelled out for its URL and name. */
  lemma DistrictStep(scrape: Scraper, districts: seq<District>, k: nat, url: string, name: string, got: seq<Record>)
    requires 1 <= k <= |districts|
    requires url == UrlOf(districts[k - 1]) && name == NameOf(districts[k - 1])
    requires got == if url == "" then [] else scrape(url, name)
    ensures Gathered(scrape, districts, k) == Gathered(scrape, districts, k - 1) + got
    ensures Log(scrape, districts, k)
            == Log(scrape, districts, k - 1)
               + if url == "" then []
                 else (if k % SaveEvery == 0 then [SaveProgress(k, Gathered(scrape, districts, k))] else []) + [Pause(k)]
  {
  }

  /** One pass of the loop body: district `idx` (0-based), printed and numbered as `idx + 1`. */
  method VisitDistrict(scrape: Scraper, districts: seq<District>, idx: nat, schools: seq<Record>, events: seq<Event>)
    returns (schools': seq<Record>, events': seq<Event>)
    requires idx < |districts|
    requires schools == Gathered(scrape, districts, idx)
    requires events == Log(scrape, districts, idx)
    ensures schools' == Gathered(scrape, districts, idx + 1)
    ensures events' == Log(scrape, districts, idx + 1)
  {
    var district := districts[idx];
    var name := NameOf(district);
    var url := UrlOf(district);
    if url == "" {
      DistrictStep(scrape, districts, idx + 1, url, name, []);
      return schools, events;
    }
    var got := scrape(url, name);
    DistrictStep(scrape, districts, idx + 1, url, name, got);
    schools' := schools + got;
    var step: seq<Event> := [];
    if (idx + 1) % SaveEvery == 0 {
      step := [SaveProgress(idx + 1, schools')];
    }
    events' := events + (step + [Pause(idx + 1)]);
  }

  /** The loop of `main` over the (possibly limited) districts, followed by the final save. */
  method ScrapeDistricts(scrape: Scraper, districts: seq<District>) returns (schools: seq<Record>, events: seq<Event>)
    ensures schools == Gathered(scrape, districts, |districts|)
    ensures |events| > 0 && events[|events| - 1] == Save(schools)
    ensures events[..|events| - 1] == Log(scrape, districts, |districts|)
  {
    schools := [];
    events := [];
    var idx := 0;
    while idx < |districts|
      invariant idx <= |districts|
      invariant schools == Gathered(scrape, districts, idx)
      invariant events == Log(scrape, districts, idx)
    {
      schools, events := VisitDistrict(scrape, districts, idx, schools, events);
      idx := idx + 1;
    }
    events := events + [Save(schools)];
  }

  /** Which events the `upto`-th district contributes. */
  lemma StepMembers(scrape: Scraper, districts: seq<District>, upto: nat, k: nat, snapshot: seq<Record>)
    requires 1 <= upto <= |districts|
    ensures var step := EventsAt(scrape, districts)(upto);
      && (Pause(k) in step <==> k == upto && UrlOf(districts[upto - 1]) != "")
      && (SaveProgress(k, snapshot) in step
          <==> && k == upto && k % SaveEvery == 0 && UrlOf(districts[upto - 1]) != ""
               && snapshot == Gathered(scrape, districts, upto))
  {
  }

  /**
    A progress save carries the 1-based index `k` exactly when `k` is a
    multiple of ten and the `k`-th district had a URL, and it holds the
    schools gathered from the first `k` districts.
   */
  lemma ProgressSavedEveryTenth(scrape: Scraper, districts: seq<District>, upto: nat, k: nat, snapshot: seq<Record>)
    requires upto <= |districts|
    ensures SaveProgress(k, snapshot) in Log(scrape, districts, upto)
            <==> && 1 <= k <= upto
                 && k % SaveEvery == 0
                 && UrlOf(districts[k - 1]) != ""
                 && snapshot == Gathered(scrape, districts, k)
  {
    var ev := EventsAt(scrape, districts);
    var e := SaveProgress(k, snapshot);
    InConcat(ev, 1, upto + 1, e);
    if 1 <= k <= upto {
      StepMembers(scrape, districts, k, k, snapshot);
    }
    forall j | 1 <= j <= upto && e in ev(j) ensures j == k {
      StepMembers(scrape, districts, j, k, snapshot);
    }
  }

  /** The loop pauses after district `k` exactly when that district had a URL. */
  lemma PauseAfterEachWalk(scrape: Scraper, districts: seq<District>, upto: nat, k: nat)
    requires upto <= |districts|
    ensures Pause(k) in Log(scrape, districts, upto) <==> 1 <= k <= upto && UrlOf(districts[k - 1]) != ""
  {
    var ev := EventsAt(scrape, districts);
    InConcat(ev, 1, upto + 1, Pause(k));
    if 1 <= k <= upto {
      StepMembers(scrape, districts, k, k, []);
    }
    forall j | 1 <= j <= upto && Pause(k) in ev(j) ensures j == k {
      StepMembers(scrape, districts, j, k, []);
    }
  }

  /** The names of the districts that were walked. */
  function WalkedNames(districts: seq<District>): set<string>
  {
    set i | 0 <= i < |districts| && UrlOf(districts[i]) != "" :: NameOf(districts[i])
  }

  /** Every record of a district's chain is stamped with that district's name. */
  predicate StampedFrom(records: seq<Record>, names: set<string>)
  {
    forall i :: 0 <= i < |records| ==> DistrictKey in records[i] && records[i][DistrictKey] in names
  }

  /**
    Every gathered school carries `school_district`, and its value is the
    name of a district that had a URL; districts without one contribute nothing.
   */
  lemma {:induction false} GatheredIsStamped(site: Site, districts: seq<District>, upto: nat)
    requires upto <= |districts|
    ensures StampedFrom(Gathered(SiteScraper(site), districts, upto), WalkedNames(districts))
  {
    if upto > 0 {
      GatheredIsStamped(site, districts, upto - 1);
      var last := districts[upto - 1];
      var before := Gathered(SiteScraper(site), districts, upto - 1);
      var here := DistrictSchools(SiteScraper(site), last);
      var all := Gathered(SiteScraper(site), districts, upto);
      if UrlOf(last) != "" {
        WalkStampsDistrict(site, BulkLayout, NameOf(last), UrlOf(last), {});
        assert NameOf(last) in WalkedNames(districts);
      }
      forall i | 0 <= i < |all| ensures DistrictKey in all[i] && all[i][DistrictKey] in WalkedNames(districts) {
        if i < |before| {
          assert all[i] == before[i];
        } else {
          assert all[i] == here[i - |before|];
        }
      }
    }
  }

  /** What the count summary reads from each school: `school['school_district']`. */
  function CountEntries(schools: seq<Record>): seq<Report.Entry>
    requires forall i :: 0 <= i < |schools| ==> DistrictKey in schools[i]
  {
    seq(|schools|, i requires 0 <= i < |schools| && DistrictKey in schools[i] => Report.Entry(schools[i][DistrictKey], false))
  }

  datatype BulkRun =
    | NoDistricts                                    // empty or unreadable district list: exit at once
    | Completed(selected: seq<District>, schools: seq<Record>, events: seq<Event>, summary: Report.Summary)

  /** `main` of the bulk extractor, after loading the district list. */
  method RunBulk(districts: seq<District>, input: LimitInput, site: Site) returns (run: BulkRun)
    ensures run.NoDistricts? <==> districts == []
    ensures run.Completed? ==>
      && run.selected == ApplyLimit(districts, input)
      && run.schools == Gathered(SiteScraper(site), run.selected, |run.selected|)
      && |run.events| > 0 && run.events[|run.events| - 1] == Save(run.schools)
      && run.events[..|run.events| - 1] == Log(SiteScraper(site), run.selected, |run.selected|)
    ensures run.Completed? ==>
      && StampedFrom(run.schools, WalkedNames(run.selected))
      && var entries := CountEntries(run.schools);
      && run.summary == Report.Summarize(entries, Report.ByTotal, SummaryRows)
      && |run.summary.shown| <= SummaryRows
      && |run.summary.shown| + run.summary.hidden == |Report.GroupSet(entries)|
      && Report.NonIncreasing(run.summary.shown, Report.ByTotal)
      && (forall i :: 0 <= i < |run.summary.shown| ==>
            && run.summary.shown[i].name in Report.GroupSet(entries)
            && run.summary.shown[i].total == Report.CountOf(entries, run.summary.shown[i].name))
      && (forall g, i :: g in Report.GroupSet(entries) && g !in Report.NameSet(run.summary.shown) && 0 <= i < |run.summary.shown| ==>
            Report.GroupKey(entries, g, Report.ByTotal) <= Report.KeyOf(run.summary.shown[i], Report.ByTotal))
      && Report.TotalOf(Report.Tally(entries)) == |run.schools|
  {
    if districts == [] {
      return NoDistricts;
    }
    var selected := ApplyLimit(districts, input);
    var schools, events := ScrapeDistricts(SiteScraper(site), selected);
    GatheredIsStamped(site, selected, |selected|);
    var entries := CountEntries(schools);
    Report.SummarySize(entries, Report.ByTotal, SummaryRows);
    Report.SummaryRowsAreCounts(entries, Report.ByTotal, SummaryRows);
    Report.SummaryHidesNoLarger(entries, Report.ByTotal, SummaryRows);
    Report.TallySumsToRecordCount(entries);
    run := Completed(selected, schools, events, Report.Summarize(entries, Report.ByTotal, SummaryRows));
  }
}
