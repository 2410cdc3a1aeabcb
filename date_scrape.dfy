/**
 * The per-date retry state machine (scraper.py, `scrape_date`) as a function of the
 * outcomes the browser produces on successive attempts.
 */
module DateScrape {
  import opened CalendarParser

  /** `self.max_retries`. */
  const MAX_RETRIES: nat := 3
  /** Recorded error texts are cut to this many characters. */
  const ERROR_LIMIT: nat := 100
  const TABLE_FAILED: string := "Calendar table failed to load"
  const NO_EVENTS_FOUND: string := "No events found"

  /**
   * What one attempt sees: navigation (or anything before parsing) raised `message`,
   * the table never appeared in time, or the table loaded and the page was read.
   */
  datatype Attempt = Raised(message: string) | TableMissing | Loaded(page: Page)

  /** How a date ends: events were found, the page held none, or the retries ran out. */
  datatype Verdict = Scraped(events: seq<EventRecord>) | NoEvents | GaveUp(reason: string)

  /** A verdict with the number of attempts it took and the browser relaunches on the way. */
  datatype DateOutcome = DateOutcome(verdict: Verdict, attempts: nat, relaunches: nat)

  /** An entry of `failed_dates`. */
  datatype FailedDate = FailedDate(date: string, error: string)

  /** Python's `s[:n]`. */
  function Truncate(s: string, n: nat): (t: string)
    ensures |t| <= n && |t| <= |s| && t == s[..|t|]
    ensures |s| <= n ==> t == s
    ensures |s| > n ==> |t| == n
  {
    if |s| <= n then s else s[..n]
  }

  /** `str(e)` of the exception an attempt raised. */
  function ErrorText(a: Attempt): string
    requires !a.Loaded?
  {
    if a.Raised? then a.message else TABLE_FAILED
  }

  /**
   * `scrape_date(key, retry)`: a loaded page ends the date (with its events, or with
   * none, which is not retried); a failed attempt is retried while `retry < MAX_RETRIES - 1`,
   * relaunching the browser first when `retry >= 1`; the last failure gives up.
   */
  function OutcomeFrom(attempts: seq<Attempt>, key: string, retry: nat): (out: DateOutcome)
    requires retry < MAX_RETRIES <= |attempts|
    ensures retry < out.attempts <= MAX_RETRIES
    ensures out.verdict.Scraped? ==> out.verdict.events != []
    ensures out.verdict.Scraped? ==> forall k :: 0 <= k < |out.verdict.events| ==>
      out.verdict.events[k].event != "" && out.verdict.events[k].scrapeDate == key
    ensures out.verdict.GaveUp? ==> out.attempts == MAX_RETRIES && |out.verdict.reason| <= ERROR_LIMIT
    ensures out.relaunches < out.attempts - retry
    decreases MAX_RETRIES - retry
  {
    match attempts[retry]
    case Loaded(page) =>
      var events := ParsePage(page, key);
      DateOutcome(if events == [] then NoEvents else Scraped(events), retry + 1, 0)
    case _ =>
      if retry < MAX_RETRIES - 1 then
        var rest := OutcomeFrom(attempts, key, retry + 1);
        rest.(relaunches := rest.relaunches + if retry >= 1 then 1 else 0)
      else
        DateOutcome(GaveUp(Truncate(ErrorText(attempts[retry]), ERROR_LIMIT)), retry + 1, 0)
  }

  /** The outcome of a call `scrape_date(key)`. */
  function ScrapeOutcome(attempts: seq<Attempt>, key: string): DateOutcome
    requires MAX_RETRIES <= |attempts|
  {
    OutcomeFrom(attempts, key, 0)
  }

  /** What the call returns as events: the scraped ones, or none. */
  function Returned(v: Verdict): seq<EventRecord> {
    if v.Scraped? then v.events else []
  }

  /** What the call appends to `successful_dates`. */
  function SuccessEntries(key: string, v: Verdict): seq<string> {
    if v.Scraped? then [key] else []
  }

  /** What the call appends to `failed_dates`. */
  function FailureEntries(key: string, v: Verdict): seq<FailedDate> {
    match v
    case Scraped(_) => []
    case NoEvents => [FailedDate(key, NO_EVENTS_FOUND)]
    case GaveUp(reason) => [FailedDate(key, reason)]
  }

  /**
   * Failed attempts from `retry` up to `j` only pass the date on to attempt `j`, adding
   * a relaunch for each of them numbered 1 and up.
   */
  lemma {:induction false} FailuresPassOn(attempts: seq<Attempt>, key: string, retry: nat, j: nat)
    requires retry <= j < MAX_RETRIES <= |attempts|
    requires forall i :: retry <= i < j ==> !attempts[i].Loaded?
    ensures OutcomeFrom(attempts, key, retry)
      == OutcomeFrom(attempts, key, j).(relaunches := OutcomeFrom(attempts, key, j).relaunches + Retries(retry, j))
    decreases j - retry
  {
    if retry < j {
      FailuresPassOn(attempts, key, retry + 1, j);
      FailurePassesOn(attempts, key, retry);
      assert Retries(retry, j) == Retries(retry + 1, j) + if retry >= 1 then 1 else 0;
    }
  }

  /** One failed attempt that is not the last hands the date on to the next attempt. */
  lemma FailurePassesOn(attempts: seq<Attempt>, key: string, retry: nat)
    requires retry < MAX_RETRIES - 1 && MAX_RETRIES <= |attempts|
    requires !attempts[retry].Loaded?
    ensures OutcomeFrom(attempts, key, retry) == OutcomeFrom(attempts, key, retry + 1).(
      relaunches := OutcomeFrom(attempts, key, retry + 1).relaunches + if retry >= 1 then 1 else 0)
  {
  }

  /**
   * The outcome from attempt `retry` on is decided by the first loaded attempt `j`: the
   * date ends after it, with its events or with none; the relaunches are the retries
   * left from attempts `>= 1` on the way.
   */
  lemma FirstLoadedDecides(attempts: seq<Attempt>, key: string, retry: nat, j: nat)
    requires retry <= j < MAX_RETRIES <= |attempts|
    requires attempts[j].Loaded? && forall i :: retry <= i < j ==> !attempts[i].Loaded?
    ensures var events := ParsePage(attempts[j].page, key);
      OutcomeFrom(attempts, key, retry)
        == DateOutcome(if events == [] then NoEvents else Scraped(events), j + 1, Retries(retry, j))
  {
    FailuresPassOn(attempts, key, retry, j);
  }

  /**
   * With no attempt from `retry` on loaded, the date gives up after the last attempt with
   * the last error, cut to ERROR_LIMIT characters.
   */
  lemma NoneLoadedGivesUp(attempts: seq<Attempt>, key: string, retry: nat)
    requires retry < MAX_RETRIES <= |attempts|
    requires forall i :: retry <= i < MAX_RETRIES ==> !attempts[i].Loaded?
    ensures OutcomeFrom(attempts, key, retry) == DateOutcome(
      GaveUp(Truncate(ErrorText(attempts[MAX_RETRIES - 1]), ERROR_LIMIT)),
      MAX_RETRIES, Retries(retry, MAX_RETRIES - 1))
  {
    FailuresPassOn(attempts, key, retry, MAX_RETRIES - 1);
  }

  /** The number of attempts `k` in `[from, last)` with `k >= 1`: those left by relaunching. */
  function Retries(from: nat, last: nat): nat {
    if last <= from || last <= 1 then 0 else last - (if from >= 1 then from else 1)
  }

  /**
   * A date whose every attempt raises takes exactly MAX_RETRIES attempts, relaunches
   * the browser MAX_RETRIES - 2 times and gives up with the last error, cut to 100 characters.
   */
  lemma AllAttemptsFail(attempts: seq<Attempt>, key: string)
    requires MAX_RETRIES <= |attempts|
    requires forall i :: 0 <= i < MAX_RETRIES ==> !attempts[i].Loaded?
    ensures ScrapeOutcome(attempts, key) == DateOutcome(
      GaveUp(Truncate(ErrorText(attempts[MAX_RETRIES - 1]), ERROR_LIMIT)), MAX_RETRIES, MAX_RETRIES - 2)
  {
    NoneLoadedGivesUp(attempts, key, 0);
  }

  /**
   * The recorded reason is only the last error's own text: when every attempt fails and
   * the last raised an exception without a message, the reason is empty.
   */
  lemma SilentErrorRecordsEmptyReason(attempts: seq<Attempt>, key: string)
    requires MAX_RETRIES <= |attempts|
    requires forall i :: 0 <= i < MAX_RETRIES ==> !attempts[i].Loaded?
    requires attempts[MAX_RETRIES - 1] == Raised("")
    ensures ScrapeOutcome(attempts, key).verdict == GaveUp("")
  {
    AllAttemptsFail(attempts, key);
  }

  /** A first attempt that loads a page without events ends the date: no retry, no relaunch. */
  lemma EmptyPageIsFinal(attempts: seq<Attempt>, key: string)
    requires MAX_RETRIES <= |attempts|
    requires attempts[0].Loaded? && ParsePage(attempts[0].page, key) == []
    ensures ScrapeOutcome(attempts, key) == DateOutcome(NoEvents, 1, 0)
  {
  }
}
