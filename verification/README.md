# CBSE schools extractor — a Dafny model of its record handling

The repository scrapes a directory of CBSE schools in three stages:

- **Listing pages.** `schools.py` and `bulk_school_extractor.py` read listing pages. Each school on a page is a `div.catbox` with a title anchor and a description. A page links to the next one through `a.nextpostslink`.
- **Bulk driver.** The bulk extractor walks every district's chain of listing pages. It stamps each record with the district's name, saves progress after every tenth district that has a URL (a district without one is skipped before the test) and prints a per-district count.
- **Enrichment.** The master extractor visits a range of the gathered list. It skips records an earlier run enriched and fails records without a link. It fetches every other school's detail page, making at most three attempts (two retries after an exception), and merges the detail table into the record with `dict.update`. It saves a checkpoint when a record that made a request sits at an offset that is a multiple of `save_interval` (a skipped record or one without a link never triggers it), saves once more at the end, and prints a district-wise completion summary.

This project models that record handling as pure functions and small methods over immutable data:

| module | what it models |
|---|---|
| `Text` | key normalisation: `lower()` then `' '`→`_` then `/`→`_` |
| `DetailPage` | `extract_school_details_from_html`, and the URL stamping of `extract_school_details_from_url` |
| `Retry` | `fetch_school_details` |
| `Listing` | `extract_schools_from_html`, `get_next_page_url` and `scrape_all_schools_from_file` |
| `Pagination` | the page walks of both scrapers, as written and with a visited set |
| `LocalThenWeb` | `main` of `schools.py` |
| `Districts` | `main` of the bulk extractor |
| `Enrichment` | `main` of the master extractor |
| `Report` | the per-district dictionaries and their sorted top-N printouts |
| `EventLog` | a generic "concatenate the events of each index" helper |

What the model replaces:

- **HTML.** Pages arrive already parsed: a detail page is a sequence of rows of cell texts, and a listing page is a sequence of catboxes plus an optional next link.
- **Network.** It is a parameter:
  - For detail pages: a function from URL and attempt number to a response.
  - For listing pages: a finite map from URL to page, where a URL outside the map fails.
  - The loops of both drivers are stated for an arbitrary `Fetcher` or `Scraper`.
  - The master extractor's fetcher is the source's retry loop as written.
  - The listing walk used by `Districts.RunBulk` and `LocalThenWeb.ScrapeLocalThenWeb` is the corrected walk with a visited set (`Pagination.Walk`), not the loop as written (`Pagination.WalkAsWritten`). The two agree on every chain that never returns to a page already read (`Pagination.WalkAgreesWithSourceWithoutRepeats`).
- **Side effects.** Saves, checkpoints and the pauses between records and between districts are recorded in an event log instead of being written or slept. The pauses inside a page walk and inside a retry are only counted; see "Left out".

Four behaviours of the code worth noting:

- **Merge.** A successful fetch overwrites existing fields of the same name (`dict.update`, `Enrichment.Apply`), so the merge is not additive-only.
- **Pauses.** The enrichment loop pauses only after a record that cost a request, not after every record (`Enrichment.PausesFollowRequests`).
- **Periodic saves.** Both save tests sit after the loop's `continue`s. A tenth district without a URL saves no progress (`Districts.ProgressSavedEveryTenth`). A record at an aligned offset that is skipped or has no link writes no checkpoint (`Enrichment.CheckpointsAtIntervals`). So on a resumed run most intervals save nothing.
- **Pagination.** The page walks keep no visited set, so a chain of next links that comes back to an earlier page is followed forever. The loop as written is `Pagination.WalkAsWritten`; the guard is the correction under "## Findings".

## Model

| member | source | states |
|---|---|---|
| Text.LowerChar | master_school_details_extractor.py:41 | lower-casing maps an ASCII capital to its small letter (code point + 32), leaves every other character alone, and never yields a capital |
| Text.Lower | master_school_details_extractor.py:41 | `lower()` keeps the length and folds each character on its own |
| Text.Replace | master_school_details_extractor.py:41 | `replace(a, b)` keeps the length and changes exactly the characters equal to `a` |
| Text.NormalizeKey | master_school_details_extractor.py:41 | a normalised label is as long as the label and holds no space, no slash and no ASCII capital |
| Text.NormalizeKeyPointwise | school_details_extractor.py:39 | the three passes act character by character, so each key character depends only on the label character at that position |
| Text.NormalizeKeyIdempotent | master_school_details_extractor.py:41 | normalising a normalised key changes nothing |
| Text.NormalizeKeyFixesNormalKeys | school_details_extractor.py:39 | a string is left unchanged by normalisation exactly when it has no space, slash or capital |
| DetailPage.LastWriter | master_school_details_extractor.py:29-44 | finds the last two-cell row whose label normalises to a key; none exactly when no row writes that key |
| DetailPage.FoldRows | master_school_details_extractor.py:24-46 | the map's keys are exactly the keys some two-cell row writes; each value comes from the last such row; there are no more keys than two-cell rows |
| DetailPage.ExtractDetails | master_school_details_extractor.py:8-46 | None exactly when the `schooldetails` div or its table is missing; otherwise every key is normalised, keys are the labels of two-cell rows, and the last duplicate wins |
| DetailPage.KeysAreRowLabels | master_school_details_extractor.py:29-44 | the key set is the set of normalised labels of the rows with exactly two cells |
| DetailPage.NonPairRowsIgnored | master_school_details_extractor.py:30-34 | a row without exactly two cells changes nothing |
| DetailPage.LaterRowWins | school_details_extractor.py:35-42 | appending a pair row sets its normalised key to its value and keeps every other key and value |
| DetailPage.WithUrl | school_details_extractor.py:55-62 | an empty map is "not found"; otherwise `url` is added, overwriting any extracted `url`, and every other field is kept |
| DetailPage.DetailsFromUrl | school_details_extractor.py:46-66 | a result exists exactly when the request succeeded, the div and table exist, and the table gave at least one field; there is no retry |
| DetailPage.DetailsFromUrlStampsUrl | school_details_extractor.py:53-59 | a result holds exactly the extracted keys plus `url`, with `url` equal to the requested URL and every other value as extracted |
| Retry.ParseResponse | master_school_details_extractor.py:52-56 | an attempt raises exactly when the request raised; otherwise it carries the parser's result, which may be None |
| Retry.FetchWithRetry | master_school_details_extractor.py:48-64 | at most `retry_count` requests (none when it is not positive, and then the result is None), with one pause fewer than requests |
| Retry.TryFrom | master_school_details_extractor.py:50-64 | every attempt before the last one raised; a last attempt that parsed gives the result; a last attempt that raised is the final permitted attempt and gives None |
| Retry.AllRaisedUsesEveryAttempt | master_school_details_extractor.py:58-64 | when every request raises, exactly `retry_count` requests (or 0) are made with `retry_count - 1` pauses, and the result is None |
| Retry.FirstResponseIsFinal | master_school_details_extractor.py:51-56 | the first attempt that does not raise ends the loop and gives the parse result, even when it is None |
| Listing.RecordOf | bulk_school_extractor.py:18-33 | a record has exactly the three keys of its layout: the anchor's text, the anchor's href, and the description, which defaults to "" |
| Listing.ExtractRecords | bulk_school_extractor.py:7-38 | one record per catbox with a title anchor, so there are no more records than catboxes, each with exactly the three layout keys |
| Listing.ExtractRecordsAppend | bulk_school_extractor.py:15-36 | extraction works catbox by catbox in page order: the records of a concatenation are the concatenated records |
| Listing.ExtractRecordsSingle | schools.py:14-32 | a catbox yields its record when it has an `h2` anchor and nothing otherwise |
| Listing.ScrapeFile | schools.py:48-63 | the local page gives one record per titled catbox, each with exactly the keys `name`, `link` and `description`, and its next URL exactly when the page has a non-empty next href |
| Listing.NextPageUrl | bulk_school_extractor.py:40-47 | the next URL exists exactly when the anchor exists with a non-empty href, and it is that href |
| Pagination.Stamp | bulk_school_extractor.py:67-69 | in the bulk extractor every record gains `school_district` equal to the district's name and keeps its other fields; `schools.py` stamps nothing |
| Pagination.WalkAsWritten | bulk_school_extractor.py:55-88 | the loop as written reads at most one page per unit of fuel, runs out only after spending every unit on a page, never notices a repeated page, and pauses once per page followed by a next link |
| Pagination.Walk | bulk_school_extractor.py:55-86 | the walk with a visited set reads nothing exactly when the URL is empty, already read or fails; otherwise it reads the start URL first; it ends on every site by its `decreases` clause |
| Pagination.WalkReadsChainOnce | bulk_school_extractor.py:55-82 | the pages read form a chain of next links from the start URL; no page is read twice; the records are the per-page records concatenated in visit order |
| Pagination.WalkStopsOnlyWhen | bulk_school_extractor.py:77-86 | the walk stops with no next page exactly when no URL is pending; it stops on a failure only when the pending URL fails, and on a repeat only when the pending URL was already read |
| Pagination.OnePausePerFollowedLink | bulk_school_extractor.py:77-80 | one politeness pause per page read that had a next link |
| Pagination.WalkStampsDistrict | bulk_school_extractor.py:64-71 | every record of a district's walk carries that district's name |
| Pagination.WalkAgreesWithSourceWithoutRepeats | schools.py:71-98 | on a chain that never returns to a page already read, the guarded walk and the loop as written give the same result |
| Pagination.ClosedLoopNeverEnds | bulk_school_extractor.py:55-82 | from a page on a closed loop of next links, the loop as written never ends, whatever its fuel |
| Pagination.RepeatMeansLoop | bulk_school_extractor.py:74-82 | when the guard cuts the walk, the pages read and those already visited hold a closed loop of next links |
| Pagination.RepeatedUrlNeverEndsAsWritten | schools.py:85-94 | wherever the guarded walk would have cut a repeat, the loop as written runs forever |
| Pagination.SelfLinkedPage | bulk_school_extractor.py:74-80 | a page whose next link is itself: the loop as written never ends, and the guarded walk reads it once and stops |
| Pagination.ScrapeFileIsFirstStep | schools.py:48-63 | reading the local page gives the records of the first step of a web walk from that page, and its next URL is the page the walk reads second |
| LocalThenWeb.ScrapeLocalThenWeb | schools.py:102-111 | the web walk runs exactly when the local page has a next link, and the output starts with the local page's records |
| LocalThenWeb.WalkKeepsPlainKeys | schools.py:25-32 | every record of a `schools.py` walk has exactly the keys `name`, `link` and `description` |
| LocalThenWeb.LocalThenWebIsOneChain | schools.py:104-111 | the output is the local records followed by the records of a chain of web pages that starts at the local next link and reads no page twice |
| Report.IndexOf | master_school_details_extractor.py:223-224 | finds the district's entry; none exactly when the district has no entry yet |
| Report.BumpNames | master_school_details_extractor.py:223-228 | counting one record adds its district to the dictionary's names and keeps them distinct |
| Report.TallyNames | master_school_details_extractor.py:218-228 | the dictionary has one entry per distinct district of the records, and no other |
| Report.TallyCounts | master_school_details_extractor.py:218-228 | each entry's total is the number of records of its district, and its completed count is the number of enriched ones |
| Report.TallyCountsEachDistrict | bulk_school_extractor.py:194-197 | the counts are per distinct district, exact, with completed at most total |
| Report.DoneAtMostCount | master_school_details_extractor.py:226-228 | no district has more completed records than records |
| Report.TallySumsToRecordCount | bulk_school_extractor.py:194-197 | the per-district totals add up to the number of records, and the completed counts add up to the number of enriched records |
| Report.BumpSums | master_school_details_extractor.py:226-228 | counting a record adds one to the sum of totals, and one to the completed sum when the record is enriched |
| Report.Insert | master_school_details_extractor.py:233 | an insertion step of the sort adds exactly the one entry |
| Report.InsertKeepsOrder | master_school_details_extractor.py:233 | inserting into a list sorted by descending key keeps it sorted |
| Report.Rank | master_school_details_extractor.py:233 | `sorted(...)` is a permutation of the entries |
| Report.RankIsSorted | master_school_details_extractor.py:233 | the ranking is in non-increasing key order (`reverse=True`) |
| Report.Top | master_school_details_extractor.py:233 | `[:n]` of the ranking: `min(n, len)` entries, sorted, drawn from the entries, and none left out has a larger key than one kept |
| Report.RankedPrefix | bulk_school_extractor.py:202 | every prefix of the ranking is sorted, drawn from the entries, and outranks the entries after it |
| Report.Hidden | master_school_details_extractor.py:237-238 | the "... and K more" count is `len - min(n, len)`, and with the rows shown under either sort key it makes up the number of districts |
| Report.UniqueNamesCount | master_school_details_extractor.py:223-224 | a dictionary with distinct names has as many entries as names |
| Report.SummarySize | master_school_details_extractor.py:233-238 | the summary shows `min(n, districts)` rows, sorted, and the hidden count makes up the rest |
| Report.SummaryRowsAreCounts | master_school_details_extractor.py:233-235 | every row shown is a district that occurs, with its exact total and completed counts |
| Report.SummaryHidesNoLarger | bulk_school_extractor.py:202-206 | no district left out of the printout has a larger key than one printed |
| Enrichment.Classify | master_school_details_extractor.py:144-173 | for any fetcher: a skip exactly when the record holds a resume marker; a failure without a request exactly when it has no marker and no link; otherwise the fetch's attempts are kept, a success carries the fetched non-empty map, and a failure means the fetch gave None or `{}` |
| Enrichment.ClassifyBranches | master_school_details_extractor.py:144-173 | a record is skipped exactly when it holds a resume marker; it fails without a request exactly when it has no marker and no link; a success has a non-empty field map; a request costs one to three attempts |
| Enrichment.Apply | master_school_details_extractor.py:166-168 | a merge sets every fetched field, overwriting fields of the same name, and keeps every other field; the other outcomes leave the record as it was |
| Enrichment.ProgressAt | master_school_details_extractor.py:141-168 | after the loop, each record in the range is its own pass applied to the record as loaded, and every record outside the range is unchanged |
| Enrichment.CountBumps | master_school_details_extractor.py:145-173 | each record moves exactly one counter: skipped for a skip, success for a merge, fail for a missing link or a failed fetch |
| Enrichment.TallyCountsEveryIndex | master_school_details_extractor.py:137-173 | success + fail + already processed equals the number of indices visited |
| Enrichment.ProcessedCount | master_school_details_extractor.py:141 | the loop visits `max(0, min(end, len) - start)` indices and stops at `min(end, len)` |
| Enrichment.ProcessOne | master_school_details_extractor.py:142-173 | the loop body tests the markers, then the link, then fetches, and takes the branch `Classify` describes |
| Enrichment.EnrichStep | master_school_details_extractor.py:141-182 | one iteration moves the list, counters and event log from their state after `idx` indices to their state after `idx + 1` |
| Enrichment.EmptyRange | master_school_details_extractor.py:141 | an empty range changes no record, counts nothing and logs nothing |
| Enrichment.EnrichLoop | master_school_details_extractor.py:141-182 | the loop leaves the list, counters and events of the whole range |
| Enrichment.EnrichRange | master_school_details_extractor.py:141-186 | the loop over `range(start, min(end, len))` gives the list, counters and events of the range; the counters add up to the visited count; one final save of the whole list follows |
| Enrichment.CheckpointsAtIntervals | master_school_details_extractor.py:175-179 | a checkpoint is written after index `i` exactly when record `i` cost a request and `i + 1 - start` is a multiple of the interval; it holds the list as it stands after `i` |
| Enrichment.PausesFollowRequests | master_school_details_extractor.py:144-182 | the loop pauses after index `i` exactly when record `i` cost a request; skips and missing links do not pause |
| Enrichment.NoSaveInsideLoop | master_school_details_extractor.py:176-186 | the loop itself writes no final save; only the one after it does |
| Enrichment.EnrichedAfterPass | master_school_details_extractor.py:144-168 | after its pass a record counts as enriched exactly when it already was, or the merged fields carry `affiliate_id` or `affiliation_id` |
| Enrichment.PassIsIdempotent | master_school_details_extractor.py:144-148 | when a merge brings a marker, a second pass over the record changes nothing, and it is skipped |
| Enrichment.RerunLeavesListUnchanged | master_school_details_extractor.py:141-169 | resuming: when every merge brought a marker, a second run over the same range leaves the list as the first run left it |
| Enrichment.CountOnRerun | master_school_details_extractor.py:145-173 | counting a rerun branch gives the rerun's counters of counting the first-run branch |
| Enrichment.RerunOutcome | master_school_details_extractor.py:144-168 | when every merge brought a marker (`affiliate_id` or `affiliation_id`), a record the first run merged is skipped on a rerun and every other record takes the same branch again |
| Enrichment.RerunTally | master_school_details_extractor.py:137-173 | when every merge brought a marker, on a rerun successes become already-processed, failures and skips stay, and nothing succeeds again |
| Enrichment.RerunWithAnyFetcher | master_school_details_extractor.py:144-173 | resuming against any network, when every merge brought a marker: a record the first run merged is skipped, every other record is judged as loaded, and a rerun succeeds only where the first run failed |
| Enrichment.ReportedTotalMatchesOnlyInRange | master_school_details_extractor.py:116-120 | the printed "Total schools processed" equals the visited count exactly when the limit is 0 (end equals start) or the requested range lies inside the list (start <= end <= length) |
| Enrichment.ReportedTotalOverstates | master_school_details_extractor.py:195 | with three schools, start 0 and limit 10, the printed total is 10 while 3 schools are visited |
| Enrichment.RunMaster | master_school_details_extractor.py:104-238 | an empty list exits at once; otherwise the list, counters, events and final save are those of the loop, and the total is the visited count; the summary is the top 20 of the district tally by completed count: each row is a district that occurs with its exact total and completed counts, no district left out has more completed records than one shown, and the totals add up to the list |
| Districts.SliceEnd | bulk_school_extractor.py:131 | where `districts[:limit]` ends, including for a negative limit |
| Districts.ApplyLimit | bulk_school_extractor.py:126-134 | a limit keeps a prefix of `min(limit, len)` districts (a negative one drops from the end); an empty or non-numeric answer keeps all |
| Districts.DistrictStep | bulk_school_extractor.py:140-162 | district `k` adds its walk's schools and, when it has a URL, a save on every tenth district and one pause; a district without a URL adds nothing |
| Districts.VisitDistrict | bulk_school_extractor.py:140-166 | one iteration moves the schools and event log from their state after `idx` districts to their state after `idx + 1` |
| Districts.ScrapeDistricts | bulk_school_extractor.py:136-169 | the loop gathers every district's walk in order, and one final save of everything follows |
| Districts.ProgressSavedEveryTenth | bulk_school_extractor.py:156-159 | progress is saved after district `k` exactly when `k` is a multiple of 10 and the district had a URL, and the save holds the schools gathered so far |
| Districts.PauseAfterEachWalk | bulk_school_extractor.py:144-162 | the loop pauses after district `k` exactly when the district had a URL |
| Districts.GatheredIsStamped | bulk_school_extractor.py:140-153 | every gathered school carries the name of a district that was walked |
| Districts.RunBulk | bulk_school_extractor.py:118-206 | an empty list exits at once; otherwise the limited list is walked and saved; the count summary is the top 10 of the district tally by count: each row is a district that occurs with its exact count, no district left out has more schools than one shown, and the counts add up to the number of schools |

## Left out

- HTTP, parsing and timeouts: `requests.get`, `raise_for_status`, timeouts and BeautifulSoup traversal with `get_text(strip=True)` are not modelled. Responses and pages arrive already parsed, and a request either raises or returns a page.
- File I/O is not modelled: loading and saving JSON, `load_schools_data`, `load_districts`, `save_schools_data`, `save_progress` and reading `schools-list.html`. Saves are events holding the list that would be written. A failed save is not modelled, because the source only prints it.
- Checkpoint writes overwrite the file directly, with no atomic rename. A crash during a write is not modelled.
- `time.sleep` is counted, not timed. The delay prompt and its value are not modelled.
- `input()` prompts, `print` output, `datetime` and the run duration are not modelled.
- The sample-data printouts (master_school_details_extractor.py:203-215, bulk_school_extractor.py:184-191, schools.py:123-129) are output only and are not modelled.
- Completion percentages are floating point (master_school_details_extractor.py:234) and are not modelled. The summary rows hold integer counts.
- `extract_school_details_from_file` and the `main` of `school_details_extractor.py` are file reads around the same parser and are not modelled.
- `json_to_excel.py` (spreadsheet conversion) and `districts-link-extractor.py` (a one-off anchor dump) are not part of this model.
- JSON values are strings. A missing `href` on a title anchor is the empty string, where the source would store `null`.
- The master extractor's `int()` / `float()` on a non-numeric prompt answer raises and ends the program. This is not modelled, because `Settings` holds integers.
- The bulk extractor's `try` around each district (bulk_school_extractor.py:151-166) is not modelled. Every call inside it catches its own exceptions, so it never fires.
- Text.LowerChar: folds ASCII capitals only, because Python's full Unicode `lower()` is not modelled.
- Listing.RecordOf: the name and link equalities are stated for layouts with three distinct keys, which both layouts of the source are.
- Pagination.WalkAsWritten: the fuel bound stands for a loop that never ends. `OutOfFuel` means the source would keep fetching forever.
- Report.Rank: tie order is not stated. The insertion sort keeps equal keys in first-seen order, as Python's stable `sorted` does, but no lemma proves it.
- Enrichment.RunMaster: requires a non-negative start, because Python's negative indexing (`schools[-1]`) is not modelled.
- Enrichment.RunMaster: requires a non-zero save interval. The source raises `ZeroDivisionError` at the first record that costs a request. A run with interval 0 where no record costs a request finishes in the source but is excluded here.
- Districts.RunBulk: its event log holds only the pause between districts (bulk_school_extractor.py:162). The per-page pause (bulk_school_extractor.py:80) is counted by `WalkResult.sleeps` and dropped, because the district scraper keeps only the walk's records.
- Enrichment.RunMaster: its event log holds only the pause after each request (master_school_details_extractor.py:182). The pause before each retry (master_school_details_extractor.py:60) is counted by `RetryRun.sleeps` and dropped, because `Outcome` keeps only the attempt count.
- Pagination.Walk: the per-page pause of the web walk (schools.py:91) is counted by `WalkResult.sleeps` and reaches no event log.
- Districts.RunBulk: walks each district with the corrected walk (`Pagination.Walk`). On a chain whose next links return to a page already read, it stops where the source would fetch forever.
- LocalThenWeb.ScrapeLocalThenWeb: walks the web pages with the corrected walk (`Pagination.Walk`), so on a chain that returns to a page already read it stops where the source would fetch forever.
- Enrichment.RerunTally: assumes the network answers each URL and attempt number the same way in both runs, because a `Fetcher` is a fixed function of the URL. Under that assumption, and when every merge brought a marker, failures stay failures and nothing succeeds again. `Enrichment.RerunWithAnyFetcher` states the part that holds for any second network when every merge brought a marker: merged records are skipped, and a rerun succeeds only where the first run failed. A merge without a marker is fetched and counted as a success again (`Enrichment.EnrichedAfterPass`).
- Enrichment.Classify: two records with the same link get the same answer within one run, because a `Fetcher` is a fixed function of the URL.
- Enrichment.Progress: its contract states only the length. What each index holds is stated by `Enrichment.ProgressAt`.
- Districts.CountEntries: requires every school to carry `school_district`, as `school['school_district']` in the source does. `Districts.GatheredIsStamped` proves that this holds for what the loop gathers.

## Findings

| source | as written | input that shows it | evidently intended | confidence | as-written member | corrected member |
|---|---|---|---|---|---|---|
| bulk_school_extractor.py:55-82 | `while current_url` follows next links with no record of the pages already read | a page `p` whose next link is `p` | a chain ends once a next link returns to a page already read, so every page is read at most once | not executed | Pagination.SelfLinkedPage | Pagination.WalkReadsChainOnce |
| schools.py:71-94 | the same loop without a visited set | any start URL from which the guarded walk meets a repeated URL | the walk ends on every site | not executed | Pagination.RepeatedUrlNeverEndsAsWritten | Pagination.Walk |
| master_school_details_extractor.py:195 | prints `end_idx - start_idx` as "Total schools processed" | three schools, start 0, limit 10: prints 10 while 3 are visited | the number of schools the loop visited, `max(0, min(end, len) - start)` | not executed | Enrichment.ReportedTotalOverstates | Enrichment.RunMaster |
