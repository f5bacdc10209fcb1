/**
  The enrichment loop of the master extractor's `main`: walk the school list
  over `[start, min(end, len))`, skip records an earlier run completed, fail
  records without a link, otherwise fetch the detail page (with retry) and
  merge its fields into the record with `dict.update`. Progress checkpoints,
  pauses and the final save are recorded as events instead of being written
  or slept.
 */
module Enrichment {
  import opened Wrappers
  import opened Listing
  import opened DetailPage
  import opened Retry
  import Report
  import opened EventLog

  const AffiliateKey := "affiliate_id"
  const AffiliationKey := "affiliation_id"
  const LinkKey := "school_link"
  const DefaultSaveInterval := 50

  /** Districts shown in the completion summary. */
  const SummaryRows := 20

  /** The resume test: a record holding either identifier was enriched by an earlier run. */
  predicate IsEnriched(rec: Record)
  {
    AffiliateKey in rec || AffiliationKey in rec
  }

  /** `school.get('school_link', '')` */
  function LinkOf(rec: Record): string
  {
    if LinkKey in rec then rec[LinkKey] else ""
  }

  /** `school.get('school_district', 'Unknown')` */
  function DistrictOf(rec: Record): string
  {
    if DistrictKey in rec then rec[DistrictKey] else "Unknown"
  }

  /** The network: the response to attempt `i` for a detail URL. */
  type Network = (string, nat) -> Response

  /** The attempts `fetch_school_details` makes for one URL. */
  function AttemptsFor(net: Network, url: string): nat -> Attempt
  {
    (i: nat) => ParseResponse(net(url, i))
  }

  /** `fetch_school_details(url)` as the loop sees it: what one call returns for each URL. */
  type Fetcher = string -> RetryRun

  /** The fetcher of the source: the retry loop with its default of three attempts over the network. */
  function RetryFetcher(net: Network): Fetcher
  {
    (url: string) => FetchWithRetry(AttemptsFor(net, url), DefaultRetryCount)
  }

  /** What the loop does with one record. */
  datatype Outcome =
    | Skipped                               // already enriched: no request
    | NoLink                                // empty or missing link: a failure, no request
    | Merged(details: Fields, attempts: nat) // a non-empty field map was fetched
    | Failed(attempts: nat)                 // every attempt raised, or the page gave None or {}

  predicate Requested(o: Outcome)
  {
    o.Merged? || o.Failed?
  }

  /** The branch taken for record `rec`, judged on the record as it is when the loop reaches it. */
  function Classify(rec: Record, fetch: Fetcher): (o: Outcome)
    ensures o.Skipped? <==> IsEnriched(rec)
    ensures o.NoLink? <==> !IsEnriched(rec) && LinkOf(rec) == ""
    ensures Requested(o) ==> o.attempts == fetch(LinkOf(rec)).attempts
    ensures o.Merged? ==> fetch(LinkOf(rec)).details == Some(o.details) && |o.details| > 0
    ensures o.Failed? ==> fetch(LinkOf(rec)).details.None? || |fetch(LinkOf(rec)).details.value| == 0
  {
    if IsEnriched(rec) then Skipped
    else if LinkOf(rec) == "" then NoLink
    else
      var run := fetch(LinkOf(rec));
      if run.details.Some? && |run.details.value| > 0 then Merged(run.details.value, run.attempts)
      else Failed(run.attempts)
  }

  /**
    A record is skipped exactly when it is enriched; failed without a request
    exactly when it is not enriched and has no link; otherwise it costs one to
    three requests and succeeds only with a non-empty field map.
   */
  lemma ClassifyBranches(rec: Record, net: Network)
    ensures var o := Classify(rec, RetryFetcher(net));
      && (o.Skipped? <==> IsEnriched(rec))
      && (o.NoLink? <==> !IsEnriched(rec) && LinkOf(rec) == "")
      && (o.Merged? ==> |o.details| > 0)
      && (Requested(o) ==> 1 <= o.attempts <= DefaultRetryCount)
  {
  }

  /**
    `school.update(details)` on success: every fetched field is set, overwriting
    a field of the same name, and every other field is kept.
   */
  function Apply(rec: Record, o: Outcome): (r: Record)
    ensures !o.Merged? ==> r == rec
    ensures o.Merged? ==> r.Keys == rec.Keys + o.details.Keys
    ensures o.Merged? ==> forall k :: k in o.details ==> r[k] == o.details[k]
    ensures o.Merged? ==> forall k :: k in rec && k !in o.details ==> r[k] == rec[k]
  {
    if o.Merged? then rec + o.details else rec
  }

  /** `min(end, len)`, where the loop stops. */
  function StopIndex(end: int, n: nat): int
  {
    if end < n then end else n
  }

  /** The list after the loop has handled indices `[start, upto)`. */
  function Progress(schools: seq<Record>, start: nat, upto: int, fetch: Fetcher): (r: seq<Record>)
    requires upto <= start || upto <= |schools|
    ensures |r| == |schools|
    decreases upto - start
  {
    if upto <= start then schools
    else
      var r := Progress(schools, start, upto - 1, fetch);
      r[upto - 1 := Apply(schools[upto - 1], Classify(schools[upto - 1], fetch))]
  }

  /**
    Each record in `[start, upto)` is the outcome of its own pass, judged on
    the record as loaded (no record is visited twice); every other record is
    as loaded.
   */
  lemma {:induction false} ProgressAt(schools: seq<Record>, start: nat, upto: int, fetch: Fetcher, i: nat)
    requires upto <= start || upto <= |schools|
    requires i < |schools|
    ensures start <= i < upto ==> Progress(schools, start, upto, fetch)[i] == Apply(schools[i], Classify(schools[i], fetch))
    ensures !(start <= i < upto) ==> Progress(schools, start, upto, fetch)[i] == schools[i]
    decreases upto - start
  {
    if upto > start && i != upto - 1 {
      ProgressAt(schools, start, upto - 1, fetch, i);
    }
  }

  datatype Counters = Counters(success: nat, fail: nat, skipped: nat)
  {
    function Sum(): nat { success + fail + skipped }
  }

  /** The counter an outcome bumps: skipped, success, or (for both failure kinds) fail. */
  function Count(t: Counters, o: Outcome): Counters
  {
    match o
    case Skipped => t.(skipped := t.skipped + 1)
    case Merged(_, _) => t.(success := t.success + 1)
    case _ => t.(fail := t.fail + 1)
  }

  /** Exactly one counter moves: `skipped` for a skip, `success` for a merge, `fail` for both failure kinds. */
  lemma CountBumps(t: Counters, o: Outcome)
    ensures var r := Count(t, o);
      && r.skipped == t.skipped + (if o.Skipped? then 1 else 0)
      && r.success == t.success + (if o.Merged? then 1 else 0)
      && r.fail == t.fail + (if o.NoLink? || o.Failed? then 1 else 0)
      && r.Sum() == t.Sum() + 1
  {
  }

  /** Every visited index is counted exactly once. */
  lemma TallyCountsEveryIndex(schools: seq<Record>, start: nat, upto: int, fetch: Fetcher)
    requires upto <= start || upto <= |schools|
    ensures TallyUpTo(schools, start, upto, fetch).Sum() == if upto <= start then 0 else upto - start
  {
    TallyUpToCountsOutcomes(schools, start, upto, fetch);
    TallyOfSum(Outcomes(schools, start, upto, fetch));
  }

  lemma {:induction false} TallyOfSum(os: seq<Outcome>)
    ensures TallyOf(os).Sum() == |os|
  {
    if os != [] {
      TallyOfSum(os[..|os| - 1]);
      CountBumps(TallyOf(os[..|os| - 1]), os[|os| - 1]);
    }
  }

  /** The counters after indices `[start, upto)`. */
  function TallyUpTo(schools: seq<Record>, start: nat, upto: int, fetch: Fetcher): (t: Counters)
    requires upto <= start || upto <= |schools|
    decreases upto - start
  {
    if upto <= start then Counters(0, 0, 0)
    else
      Count(TallyUpTo(schools, start, upto - 1, fetch), Classify(schools[upto - 1], fetch))
  }

  /** Side effects of the loop, in order. */
  datatype Event =
    | Checkpoint(index: nat, snapshot: seq<Record>)   // `save_progress` of the whole list
    | Pause(index: nat)                               // `time.sleep(delay)` after a request
    | Save(snapshot: seq<Record>)                     // `save_schools_data` after the loop

  predicate IsCheckpointIndex(start: nat, idx: nat, saveInterval: int)
    requires saveInterval != 0
  {
    (idx + 1 - start) % saveInterval == 0
  }

  /** The events of index `idx`: none for a skipped or link-less record. */
  function StepEvents(schools: seq<Record>, start: nat, idx: nat, saveInterval: int, fetch: Fetcher): seq<Event>
    requires idx < |schools| && saveInterval != 0
  {
    if !Requested(Classify(schools[idx], fetch)) then []
    else
      (if IsCheckpointIndex(start, idx, saveInterval)
       then [Checkpoint(idx, Progress(schools, start, idx + 1, fetch))] else [])
      + [Pause(idx)]
  }

  /** The events of indices `[start, upto)`. */
  function Log(schools: seq<Record>, start: nat, upto: int, saveInterval: int, fetch: Fetcher): seq<Event>
    requires upto <= start || upto <= |schools|
    requires saveInterval != 0
  {
    Concat(EventsAt(schools, start, saveInterval, fetch), start, upto)
  }

  /** The events of each index, as a function of the index. */
  function EventsAt(schools: seq<Record>, start: nat, saveInterval: int, fetch: Fetcher): nat -> seq<Event>
  {
    (idx: nat) => if idx < |schools| && saveInterval != 0 then StepEvents(schools, start, idx, saveInterval, fetch) else []
  }

  /** How many indices the loop visits: `max(0, min(end, len) - start)`. */
  function ProcessedCount(start: nat, end: int, n: nat): (c: nat)
    ensures c <= n
    ensures c == 0 <==> StopIndex(end, n) <= start
    ensures c > 0 ==> start + c == StopIndex(end, n)
  {
    if StopIndex(end, n) <= start then 0 else StopIndex(end, n) - start
  }

  lemma LogStep(schools: seq<Record>, start: nat, idx: nat, saveInterval: int, fetch: Fetcher)
    requires start <= idx < |schools| && saveInterval != 0
    ensures Log(schools, start, idx + 1, saveInterval, fetch)
            == Log(schools, start, idx, saveInterval, fetch) + StepEvents(schools, start, idx, saveInterval, fetch)
  {
  }

  /** The events of one index, spelled out for an outcome and the list as it stands after it. */
  lemma StepEventsOf(schools: seq<Record>, start: nat, idx: nat, saveInterval: int, fetch: Fetcher,
                     o: Outcome, snapshot: seq<Record>)
    requires start <= idx < |schools| && saveInterval != 0
    requires o == Classify(schools[idx], fetch)
    requires snapshot == Progress(schools, start, idx + 1, fetch)
    ensures StepEvents(schools, start, idx, saveInterval, fetch)
            == if !Requested(o) then []
               else (if (idx + 1 - start) % saveInterval == 0 then [Checkpoint(idx, snapshot)] else []) + [Pause(idx)]
  {
  }

  /**
    One pass of the loop body for record `school`, in the order the source
    tests it: the resume markers, then the link, then the fetch with retry.
   */
  method ProcessOne(school: Record, fetch: Fetcher) returns (o: Outcome)
    ensures o == Classify(school, fetch)
    ensures o.Skipped? <==> IsEnriched(school)
    ensures o.NoLink? <==> !IsEnriched(school) && LinkOf(school) == ""
    ensures o.Merged? ==> |o.details| > 0
  {
    if AffiliateKey in school || AffiliationKey in school {
      return Skipped;
    }
    var link := if LinkKey in school then school[LinkKey] else "";
    if link == "" {
      return NoLink;
    }
    var run := fetch(link);
    if run.details.Some? && |run.details.value| > 0 {
      o := Merged(run.details.value, run.attempts);
    } else {
      o := Failed(run.attempts);
    }
  }

  /** The loop's state after indices `[start, idx)`: the list, the counters and the events so far. */
  predicate Reached(schools: seq<Record>, start: nat, idx: nat, saveInterval: int, fetch: Fetcher,
                    records: seq<Record>, tally: Counters, events: seq<Event>)
    requires idx <= |schools| && saveInterval != 0
  {
    && records == Progress(schools, start, idx, fetch)
    && tally == TallyUpTo(schools, start, idx, fetch)
    && events == Log(schools, start, idx, saveInterval, fetch)
  }

  /** One iteration of the loop of `main`: handle index `idx` and record what it caused. */
  method EnrichStep(schools: seq<Record>, start: nat, idx: nat, saveInterval: int, fetch: Fetcher,
                    records: seq<Record>, tally: Counters, events: seq<Event>)
    returns (records': seq<Record>, tally': Counters, events': seq<Event>)
    requires start <= idx < |schools| && saveInterval != 0
    requires Reached(schools, start, idx, saveInterval, fetch, records, tally, events)
    ensures Reached(schools, start, idx + 1, saveInterval, fetch, records', tally', events')
  {
    LogStep(schools, start, idx, saveInterval, fetch);
    ProgressAt(schools, start, idx, fetch, idx);
    var o := ProcessOne(records[idx], fetch);
    records' := records[idx := Apply(schools[idx], o)];
    tally' := Count(tally, o);
    StepEventsOf(schools, start, idx, saveInterval, fetch, o, records');
    var step: seq<Event> := [];
    if Requested(o) {
      if (idx + 1 - start) % saveInterval == 0 {
        step := [Checkpoint(idx, records')];
      }
      step := step + [Pause(idx)];
    }
    events' := events + step;
  }

  /** An empty range changes nothing, counts nothing and logs nothing. */
  lemma EmptyRange(schools: seq<Record>, start: nat, upto: int, saveInterval: int, fetch: Fetcher)
    requires upto <= start && saveInterval != 0
    ensures Progress(schools, start, upto, fetch) == schools
    ensures TallyUpTo(schools, start, upto, fetch) == Counters(0, 0, 0)
    ensures Log(schools, start, upto, saveInterval, fetch) == []
  {
  }

  /** The loop of `main` over `range(start_idx, min(end_idx, len(schools)))`, followed by the final save. */
  method EnrichRange(schools: seq<Record>, start: nat, end: int, saveInterval: int, fetch: Fetcher)
    returns (records: seq<Record>, tally: Counters, events: seq<Event>)
    requires saveInterval != 0
    ensures records == Progress(schools, start, StopIndex(end, |schools|), fetch)
    ensures tally.Sum() == ProcessedCount(start, end, |schools|)
    ensures tally == TallyUpTo(schools, start, StopIndex(end, |schools|), fetch)
    ensures |events| > 0 && events[|events| - 1] == Save(records)
    ensures events[..|events| - 1] == Log(schools, start, StopIndex(end, |schools|), saveInterval, fetch)
  {
    var stop := StopIndex(end, |schools|);
    if stop <= start {
      EmptyRange(schools, start, stop, saveInterval, fetch);
      records, tally, events := schools, Counters(0, 0, 0), [];
    } else {
      records, tally, events := EnrichLoop(schools, start, stop, saveInterval, fetch);
    }
    TallyCountsEveryIndex(schools, start, stop, fetch);
    events := events + [Save(records)];
  }

  /** The loop itself, over a non-empty range. */
  method EnrichLoop(schools: seq<Record>, start: nat, stop: nat, saveInterval: int, fetch: Fetcher)
    returns (records: seq<Record>, tally: Counters, events: seq<Event>)
    requires start <= stop <= |schools| && saveInterval != 0
    ensures records == Progress(schools, start, stop, fetch)
    ensures tally == TallyUpTo(schools, start, stop, fetch)
    ensures events == Log(schools, start, stop, saveInterval, fetch)
  {
    records := schools;
    tally := Counters(0, 0, 0);
    events := [];
    var idx := start;
    while idx < stop
      invariant start <= idx <= stop
      invariant Reached(schools, start, idx, saveInterval, fetch, records, tally, events)
    {
      records, tally, events := EnrichStep(schools, start, idx, saveInterval, fetch, records, tally, events);
      idx := idx + 1;
    }
  }

  /** Which events one index contributes. */
  lemma StepMembers(schools: seq<Record>, start: nat, idx: nat, saveInterval: int, fetch: Fetcher,
                    i: nat, snapshot: seq<Record>)
    requires idx < |schools| && saveInterval != 0
    ensures var step := EventsAt(schools, start, saveInterval, fetch)(idx);
      && (Pause(i) in step <==> i == idx && Requested(Classify(schools[idx], fetch)))
      && (Checkpoint(i, snapshot) in step
          <==> && i == idx
               && Requested(Classify(schools[idx], fetch))
               && IsCheckpointIndex(start, idx, saveInterval)
               && snapshot == Progress(schools, start, idx + 1, fetch))
      && Save(snapshot) !in step
  {
  }

  /**
    A progress checkpoint is written for index `i` exactly when the record at
    `i` cost a request and `i + 1 - start` is a multiple of the save interval,
    and it holds the list as it stands after index `i`.
   */
  lemma CheckpointsAtIntervals(schools: seq<Record>, start: nat, upto: int, saveInterval: int,
                               fetch: Fetcher, i: nat, snapshot: seq<Record>)
    requires upto <= start || upto <= |schools|
    requires saveInterval != 0
    ensures Checkpoint(i, snapshot) in Log(schools, start, upto, saveInterval, fetch)
            <==> && start <= i < upto
                 && Requested(Classify(schools[i], fetch))
                 && IsCheckpointIndex(start, i, saveInterval)
                 && snapshot == Progress(schools, start, i + 1, fetch)
  {
    var ev := EventsAt(schools, start, saveInterval, fetch);
    var e := Checkpoint(i, snapshot);
    InConcat(ev, start, upto, e);
    if start <= i < upto {
      StepMembers(schools, start, i, saveInterval, fetch, i, snapshot);
    }
    forall j | start <= j < upto && e in ev(j) ensures j == i {
      StepMembers(schools, start, j, saveInterval, fetch, i, snapshot);
    }
  }

  /** The loop pauses after index `i` exactly when the record at `i` cost a request. */
  lemma PausesFollowRequests(schools: seq<Record>, start: nat, upto: int, saveInterval: int,
                             fetch: Fetcher, i: nat)
    requires upto <= start || upto <= |schools|
    requires saveInterval != 0
    ensures Pause(i) in Log(schools, start, upto, saveInterval, fetch)
            <==> start <= i < upto && Requested(Classify(schools[i], fetch))
  {
    var ev := EventsAt(schools, start, saveInterval, fetch);
    InConcat(ev, start, upto, Pause(i));
    if start <= i < upto {
      StepMembers(schools, start, i, saveInterval, fetch, i, []);
    }
    forall j | start <= j < upto && Pause(i) in ev(j) ensures j == i {
      StepMembers(schools, start, j, saveInterval, fetch, i, []);
    }
  }

  /** The final save is the only `Save` event. */
  lemma NoSaveInsideLoop(schools: seq<Record>, start: nat, upto: int, saveInterval: int,
                         fetch: Fetcher, snapshot: seq<Record>)
    requires upto <= start || upto <= |schools|
    requires saveInterval != 0
    ensures Save(snapshot) !in Log(schools, start, upto, saveInterval, fetch)
  {
    var ev := EventsAt(schools, start, saveInterval, fetch);
    InConcat(ev, start, upto, Save(snapshot));
    forall j | start <= j < upto ensures Save(snapshot) !in ev(j) {
      StepMembers(schools, start, j, saveInterval, fetch, j, snapshot);
    }
  }

  /** Whether merged fields carry one of the resume markers. */
  predicate BringsMarker(o: Outcome)
  {
    o.Merged? && (AffiliateKey in o.details || AffiliationKey in o.details)
  }

  /**
    After its pass a record counts as enriched exactly when it already was, or
    when the fields merged into it carry `affiliate_id` or `affiliation_id`:
    a successful merge without either marker is fetched again on a rerun.
   */
  lemma EnrichedAfterPass(rec: Record, fetch: Fetcher)
    ensures IsEnriched(Apply(rec, Classify(rec, fetch))) <==> IsEnriched(rec) || BringsMarker(Classify(rec, fetch))
  {
  }

  /** Every merge in `[start, upto)` brought a resume marker. */
  predicate MarkedMerges(schools: seq<Record>, start: nat, upto: int, fetch: Fetcher)
    requires upto <= start || upto <= |schools|
  {
    forall i :: start <= i < upto ==> (Classify(schools[i], fetch).Merged? ==> BringsMarker(Classify(schools[i], fetch)))
  }

  /** Rerunning one record after its pass with the same network changes nothing more. */
  lemma PassIsIdempotent(rec: Record, fetch: Fetcher)
    requires var o := Classify(rec, fetch); o.Merged? ==> BringsMarker(o)
    ensures var once := Apply(rec, Classify(rec, fetch)); Apply(once, Classify(once, fetch)) == once
    ensures var o := Classify(rec, fetch); var once := Apply(rec, o);
      Classify(once, fetch) == (if o.Merged? then Skipped else o)
  {
  }

  /**
    Resuming: when every merge brought a marker, a second run over the same
    range with the same network leaves the list as the first run left it.
   */
  lemma {:induction false} RerunLeavesListUnchanged(schools: seq<Record>, start: nat, upto: int, fetch: Fetcher)
    requires upto <= start || upto <= |schools|
    requires MarkedMerges(schools, start, upto, fetch)
    ensures var once := Progress(schools, start, upto, fetch);
      Progress(once, start, upto, fetch) == once
  {
    var once := Progress(schools, start, upto, fetch);
    var twice := Progress(once, start, upto, fetch);
    forall i | 0 <= i < |once| ensures twice[i] == once[i] {
      ProgressAt(schools, start, upto, fetch, i);
      ProgressAt(once, start, upto, fetch, i);
      if start <= i < upto {
        PassIsIdempotent(schools[i], fetch);
      }
    }
  }

  /** The branch a record takes on a rerun, given the branch it took the first time. */
  function RerunOf(o: Outcome): Outcome
  {
    if o.Merged? then Skipped else o
  }

  /** The counters a rerun reports, given the first run's: every success is now already processed. */
  function RerunTallyOf(t: Counters): Counters
  {
    Counters(0, t.fail, t.skipped + t.success)
  }

  lemma CountOnRerun(t: Counters, o: Outcome)
    ensures Count(RerunTallyOf(t), RerunOf(o)) == RerunTallyOf(Count(t, o))
  {
  }

  /**
    On a rerun, when every merge brought a marker, a record the first run
    merged is skipped; every other record takes the same branch again.
   */
  lemma RerunOutcome(schools: seq<Record>, start: nat, final: int, fetch: Fetcher, i: nat)
    requires final <= start || final <= |schools|
    requires MarkedMerges(schools, start, final, fetch)
    requires start <= i < final
    ensures Classify(Progress(schools, start, final, fetch)[i], fetch) == RerunOf(Classify(schools[i], fetch))
  {
    var o := Classify(schools[i], fetch);
    assert o.Merged? ==> BringsMarker(o);
    ProgressAt(schools, start, final, fetch, i);
    PassIsIdempotent(schools[i], fetch);
  }

  /**
    Resuming, counted: when every merge brought a marker, the second run makes
    no request that succeeds, fails what the first run failed, and counts
    every first-run success as already processed.
   */
  lemma {:induction false} RerunTally(schools: seq<Record>, start: nat, upto: int, final: int, fetch: Fetcher)
    requires upto <= final <= |schools|
    requires MarkedMerges(schools, start, final, fetch)
    ensures TallyUpTo(Progress(schools, start, final, fetch), start, upto, fetch)
            == RerunTallyOf(TallyUpTo(schools, start, upto, fetch))
  {
    var once := Progress(schools, start, final, fetch);
    var first := Outcomes(schools, start, upto, fetch);
    var again := Outcomes(once, start, upto, fetch);
    forall j | 0 <= j < |first| ensures again[j] == RerunOf(first[j]) {
      OutcomesAt(schools, start, upto, fetch, start + j);
      OutcomesAt(once, start, upto, fetch, start + j);
      RerunOutcome(schools, start, final, fetch, start + j);
    }
    TallyUpToCountsOutcomes(schools, start, upto, fetch);
    TallyUpToCountsOutcomes(once, start, upto, fetch);
    TallyOfRerun(first, again);
  }

  /**
    Resuming against a network that may answer differently the second time:
    every record the first run merged is skipped, every other record is judged
    as loaded, so a rerun can only succeed where the first run failed.
   */
  lemma RerunWithAnyFetcher(schools: seq<Record>, start: nat, final: int, fetch: Fetcher, again: Fetcher, i: nat)
    requires final <= start || final <= |schools|
    requires MarkedMerges(schools, start, final, fetch)
    requires start <= i < final
    ensures var o := Classify(schools[i], fetch);
      var o2 := Classify(Progress(schools, start, final, fetch)[i], again);
      && (o.Merged? ==> o2.Skipped?)
      && (!o.Merged? ==> o2 == Classify(schools[i], again))
      && (o2.Merged? ==> o.Failed?)
  {
    var o := Classify(schools[i], fetch);
    assert o.Merged? ==> BringsMarker(o);
    ProgressAt(schools, start, final, fetch, i);
  }

  /** The branches taken at indices `[start, upto)`, in order, each judged on the record as given. */
  function Outcomes(schools: seq<Record>, start: nat, upto: int, fetch: Fetcher): (os: seq<Outcome>)
    requires upto <= start || upto <= |schools|
    ensures |os| == if upto <= start then 0 else upto - start
    decreases upto - start
  {
    if upto <= start then []
    else Outcomes(schools, start, upto - 1, fetch) + [Classify(schools[upto - 1], fetch)]
  }

  lemma {:induction false} OutcomesAt(schools: seq<Record>, start: nat, upto: int, fetch: Fetcher, i: nat)
    requires upto <= |schools|
    requires start <= i < upto
    ensures Outcomes(schools, start, upto, fetch)[i - start] == Classify(schools[i], fetch)
    decreases upto - start
  {
    if i < upto - 1 {
      OutcomesAt(schools, start, upto - 1, fetch, i);
    }
  }

  /** The counters for a sequence of outcomes, counted in order. */
  function TallyOf(os: seq<Outcome>): Counters
  {
    if os == [] then Counters(0, 0, 0) else Count(TallyOf(os[..|os| - 1]), os[|os| - 1])
  }

  /** The loop's counters are the count of the branches it took. */
  lemma {:induction false} TallyUpToCountsOutcomes(schools: seq<Record>, start: nat, upto: int, fetch: Fetcher)
    requires upto <= start || upto <= |schools|
    ensures TallyUpTo(schools, start, upto, fetch) == TallyOf(Outcomes(schools, start, upto, fetch))
    decreases upto - start
  {
    if upto > start {
      var os := Outcomes(schools, start, upto, fetch);
      TallyUpToCountsOutcomes(schools, start, upto - 1, fetch);
      assert os[..|os| - 1] == Outcomes(schools, start, upto - 1, fetch);
    }
  }

  /** Counting the rerun branches of a sequence of outcomes gives the rerun's counters. */
  lemma {:induction false} TallyOfRerun(os: seq<Outcome>, again: seq<Outcome>)
    requires |again| == |os|
    requires forall j :: 0 <= j < |os| ==> again[j] == RerunOf(os[j])
    ensures TallyOf(again) == RerunTallyOf(TallyOf(os))
  {
    if os != [] {
      var n := |os| - 1;
      TallyOfRerun(os[..n], again[..n]);
      CountOnRerun(TallyOf(os[..n]), os[n]);
    }
  }

  /** `end_idx`: `start_idx + limit` when a limit was typed, else the list length. */
  function EndIndex(start: nat, limit: Option<int>, n: nat): int
  {
    if limit.Some? then start + limit.value else n
  }

  /** The "Total schools processed" line as written: the requested span, not the visited one. */
  function ReportedTotalAsWritten(start: nat, end: int): int
  {
    end - start
  }

  /**
    The printed total matches the number of schools the loop visited exactly
    when the requested range lies inside the list or is empty.
   */
  lemma ReportedTotalMatchesOnlyInRange(start: nat, end: int, n: nat)
    ensures ReportedTotalAsWritten(start, end) == ProcessedCount(start, end, n)
            <==> start <= end <= n || end == start
  {
  }

  /** Three schools, start 0, limit 10: the summary claims 10 while 3 were visited. */
  lemma ReportedTotalOverstates()
    ensures var end := EndIndex(0, Some(10), 3);
      ReportedTotalAsWritten(0, end) == 10 && ProcessedCount(0, end, 3) == 3
  {
  }

  /** What the completion summary reads from each record: its district and whether it is enriched. */
  function DistrictEntries(records: seq<Record>): seq<Report.Entry>
  {
    seq(|records|, i requires 0 <= i < |records| => Report.Entry(DistrictOf(records[i]), IsEnriched(records[i])))
  }

  /** The answers typed at the prompts; `None` is an empty answer. The delay is not modelled. */
  datatype Settings = Settings(start: Option<int>, limit: Option<int>, saveInterval: Option<int>)

  datatype MasterRun =
    | NoSchools                                  // empty or unreadable input: exit before any prompt
    | Completed(records: seq<Record>, tally: Counters, events: seq<Event>,
                total: nat, summary: Report.Summary)

  /**
    `main` of the master extractor, after loading the list: read the settings,
    run the loop, save, and build the district-wise completion summary. The
    printed total is the corrected count of visited schools.
   */
  method RunMaster(schools: seq<Record>, settings: Settings, net: Network) returns (run: MasterRun)
    requires settings.start.GetOr(0) >= 0
    requires settings.saveInterval.GetOr(DefaultSaveInterval) != 0
    ensures run.NoSchools? <==> schools == []
    ensures run.Completed? ==>
      var start: nat := settings.start.GetOr(0);
      var stop := StopIndex(EndIndex(start, settings.limit, |schools|), |schools|);
      && run.records == Progress(schools, start, stop, RetryFetcher(net))
      && run.tally == TallyUpTo(schools, start, stop, RetryFetcher(net))
      && run.total == run.tally.Sum()
      && |run.events| > 0
      && run.events[..|run.events| - 1] == Log(schools, start, stop, settings.saveInterval.GetOr(DefaultSaveInterval), RetryFetcher(net))
      && run.events[|run.events| - 1] == Save(run.records)
    ensures run.Completed? ==>
      var entries := DistrictEntries(run.records);
      && run.summary == Report.Summarize(entries, Report.ByCompleted, SummaryRows)
      && |run.summary.shown| <= SummaryRows
      && |run.summary.shown| + run.summary.hidden == |Report.GroupSet(entries)|
      && Report.NonIncreasing(run.summary.shown, Report.ByCompleted)
      && (forall i :: 0 <= i < |run.summary.shown| ==>
            && run.summary.shown[i].name in Report.GroupSet(entries)
            && run.summary.shown[i].total == Report.CountOf(entries, run.summary.shown[i].name)
            && run.summary.shown[i].completed == Report.DoneOf(entries, run.summary.shown[i].name)
            && run.summary.shown[i].completed <= run.summary.shown[i].total)
      && (forall g, i :: g in Report.GroupSet(entries) && g !in Report.NameSet(run.summary.shown) && 0 <= i < |run.summary.shown| ==>
            Report.GroupKey(entries, g, Report.ByCompleted) <= Report.KeyOf(run.summary.shown[i], Report.ByCompleted))
      && Report.TotalOf(Report.Tally(entries)) == |run.records|
  {
    if schools == [] {
      return NoSchools;
    }
    var start: nat := settings.start.GetOr(0);
    var end := EndIndex(start, settings.limit, |schools|);
    var saveInterval := settings.saveInterval.GetOr(DefaultSaveInterval);
    var records, tally, events := EnrichRange(schools, start, end, saveInterval, RetryFetcher(net));
    var entries := DistrictEntries(records);
    Report.SummarySize(entries, Report.ByCompleted, SummaryRows);
    Report.SummaryRowsAreCounts(entries, Report.ByCompleted, SummaryRows);
    Report.SummaryHidesNoLarger(entries, Report.ByCompleted, SummaryRows);
    Report.DoneAtMostCount(entries);
    Report.TallySumsToRecordCount(entries);
    var summary := Report.Summarize(entries, Report.ByCompleted, SummaryRows);
    run := Completed(records, tally, events, ProcessedCount(start, end, |schools|), summary);
  }
}
