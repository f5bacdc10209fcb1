/**
  `fetch_school_details(url, retry_count=3)` of the master extractor: up to
  `retry_count` requests, a two-second pause before each repeat, and a repeat
  only after an exception. The network is given as the outcome of attempt 0,
  1, 2, ... for the one URL; pauses are counted, not timed.
 */
module Retry {
  import opened Wrappers
  import opened DetailPage

  const DefaultRetryCount := 3

  /** One attempt: the request raised, or it returned a page and the parser made this of it. */
  datatype Attempt = Raise | Parsed(details: Option<Fields>)

  /** The attempt outcome of a response: parsing is pure and never raises. */
  function ParseResponse(resp: Response): (a: Attempt)
    ensures a.Raise? <==> resp.Raised?
    ensures a.Parsed? ==> a.details == ExtractDetails(resp.doc)
  {
    match resp
    case Raised => Raise
    case Fetched(doc) => Parsed(ExtractDetails(doc))
  }

  /** What one call did: its result, how many requests it made, how many pauses it took. */
  datatype RetryRun = RetryRun(details: Option<Fields>, attempts: nat, sleeps: nat)

  /** `for attempt in range(retry_count)`: with no attempt to make, the function falls off its end. */
  function FetchWithRetry(net: nat -> Attempt, retryCount: int): (r: RetryRun)
    ensures r.attempts <= if retryCount < 0 then 0 else retryCount
    ensures r.sleeps == if r.attempts == 0 then 0 else r.attempts - 1
    ensures r.attempts == 0 ==> r.details.None?
  {
    if retryCount <= 0 then RetryRun(None, 0, 0) else TryFrom(net, retryCount, 0)
  }

  /** The loop body from attempt `attempt` on. */
  function TryFrom(net: nat -> Attempt, retryCount: int, attempt: nat): (r: RetryRun)
    requires attempt < retryCount
    ensures attempt < r.attempts <= retryCount
    ensures r.sleeps == r.attempts - 1
    ensures forall i :: attempt <= i < r.attempts - 1 ==> net(i).Raise?
    ensures net(r.attempts - 1).Parsed? ==> r.details == net(r.attempts - 1).details
    ensures net(r.attempts - 1).Raise? ==> r.details.None? && r.attempts == retryCount
    decreases retryCount - attempt
  {
    match net(attempt)
    case Parsed(details) =>
      RetryRun(details, attempt + 1, attempt)
    case Raise =>
      if attempt < retryCount - 1 then TryFrom(net, retryCount, attempt + 1)
      else RetryRun(None, attempt + 1, attempt)
  }

  /** A server that always fails is asked exactly `retryCount` times, with one pause fewer. */
  lemma AllRaisedUsesEveryAttempt(net: nat -> Attempt, retryCount: int)
    requires forall i :: 0 <= i < retryCount ==> net(i).Raise?
    ensures var r := FetchWithRetry(net, retryCount);
      && r.details.None?
      && r.attempts == (if retryCount < 0 then 0 else retryCount)
      && r.sleeps == (if retryCount <= 0 then 0 else retryCount - 1)
  {
  }

  /**
    The first request that does not raise ends the loop, whatever the parser
    makes of the page: a missing table gives None without another attempt.
   */
  lemma FirstResponseIsFinal(net: nat -> Attempt, retryCount: int, j: nat)
    requires j < retryCount
    requires net(j).Parsed?
    requires forall i :: 0 <= i < j ==> net(i).Raise?
    ensures FetchWithRetry(net, retryCount) == RetryRun(net(j).details, j + 1, j)
  {
  }
}
