/**
 * The scraper object (scraper.py, class `ForexFactoryCalendarScraper`): the per-date
 * retry loop, the crawl over a range of days, persistence after every successful date,
 * and the end-of-run summary.
 */
module Scraper {
  import opened Wrappers
  import opened DateKey
  import opened CalendarParser
  import opened DateScrape
  import opened Breaker

  const BASE_URL: string := "https://www.forexfactory.com/calendar"
  /** At most this many failed dates are listed in the summary. */
  const LISTED_FAILURES: nat := 10

  /** `self.driver`: None, a live browser, or a browser that has been quit but is still referenced. */
  datatype DriverSlot = NoDriver | Open | Closed

  /** One day of a crawl: its key and how its scrape ended. */
  datatype DayResult = DayResult(key: string, outcome: DateOutcome)

  /** A day whose scraped events are well formed and belong to its key. */
  predicate Consistent(r: DayResult) {
    r.outcome.verdict.Scraped? ==>
      forall k :: 0 <= k < |r.outcome.verdict.events| ==>
        r.outcome.verdict.events[k].event != "" && r.outcome.verdict.events[k].scrapeDate == r.key
  }

  /** The keys of the days of a crawl, in order. */
  function Keys(days: seq<Day>): (keys: seq<string>)
    requires forall i :: 0 <= i < |days| ==> InRange(days[i])
    ensures |keys| == |days|
    ensures forall i :: 0 <= i < |days| ==> keys[i] == GenerateDateString(days[i])
  {
    seq(|days|, i requires 0 <= i < |days| => GenerateDateString(days[i]))
  }

  /** Different days of a walk get different keys, so each ledger entry names one day. */
  lemma KeysNameTheirDays(days: seq<Day>, i: nat, j: nat)
    requires forall i :: 0 <= i < |days| ==> InRange(days[i])
    requires i < |days| && j < |days| && days[i] != days[j]
    ensures Keys(days)[i] != Keys(days)[j]
  {
    DistinctDaysDistinctKeys(days[i], days[j]);
  }

  /** What each day of a crawl over the keys `keys` comes to, given what its attempts see. */
  function DayResults(keys: seq<string>, fetches: seq<seq<Attempt>>): (rs: seq<DayResult>)
    requires |fetches| == |keys|
    requires forall i :: 0 <= i < |fetches| ==> MAX_RETRIES <= |fetches[i]|
    ensures |rs| == |keys|
  {
    if keys == [] then []
    else
      var n := |keys| - 1;
      DayResults(keys[..n], fetches[..n]) + [DayResult(keys[n], ScrapeOutcome(fetches[n], keys[n]))]
  }

  /** Day `i` of a crawl is the outcome of scraping that day's key with its own attempts. */
  lemma {:induction false} DayResultsAt(keys: seq<string>, fetches: seq<seq<Attempt>>, i: nat)
    requires |fetches| == |keys| && i < |keys|
    requires forall i :: 0 <= i < |fetches| ==> MAX_RETRIES <= |fetches[i]|
    ensures DayResults(keys, fetches)[i] == DayResult(keys[i], ScrapeOutcome(fetches[i], keys[i]))
  {
    var n := |keys| - 1;
    if i < n {
      DayResultsAt(keys[..n], fetches[..n], i);
    }
  }

  /** The events a crawl adds to `data`, day after day. */
  function Harvest(rs: seq<DayResult>): seq<EventRecord> {
    if rs == [] then []
    else Harvest(rs[..|rs| - 1]) + Returned(rs[|rs| - 1].outcome.verdict)
  }

  /** The keys a crawl adds to `successful_dates`. */
  function Successes(rs: seq<DayResult>): seq<string> {
    if rs == [] then []
    else Successes(rs[..|rs| - 1]) + SuccessEntries(rs[|rs| - 1].key, rs[|rs| - 1].outcome.verdict)
  }

  /** The entries a crawl adds to `failed_dates`. */
  function Failures(rs: seq<DayResult>): seq<FailedDate> {
    if rs == [] then []
    else Failures(rs[..|rs| - 1]) + FailureEntries(rs[|rs| - 1].key, rs[|rs| - 1].outcome.verdict)
  }

  /** Which days succeeded, in order: what the breaker sees. */
  function Oks(rs: seq<DayResult>): seq<bool> {
    if rs == [] then []
    else Oks(rs[..|rs| - 1]) + [rs[|rs| - 1].outcome.verdict.Scraped?]
  }

  /** The browser relaunches made by the retries of a crawl. */
  function Relaunches(rs: seq<DayResult>): nat {
    if rs == [] then 0
    else Relaunches(rs[..|rs| - 1]) + rs[|rs| - 1].outcome.relaunches
  }

  /** The URLs a crawl visits, day after day. */
  function Visits(rs: seq<DayResult>): seq<string> {
    if rs == [] then []
    else Visits(rs[..|rs| - 1]) + DayVisits(rs[|rs| - 1])
  }

  /** `n` copies of `x`. */
  function Repeat<T>(x: T, n: nat): (s: seq<T>)
    ensures |s| == n && forall i :: 0 <= i < n ==> s[i] == x
  {
    if n == 0 then [] else Repeat(x, n - 1) + [x]
  }

  /** The figures print_summary prints. */
  datatype RunSummary = RunSummary(
    successful: nat, failed: nat, totalEvents: nat,
    listed: seq<FailedDate>,  // the failed dates printed one per line
    unlisted: nat)            // the N of the trailing "... and N more" line, 0 when there is none

  /** print_summary: the counts, then at most ten failed dates and how many more there are. */
  function SummaryOf(successfulDates: seq<string>, failedDates: seq<FailedDate>, data: seq<EventRecord>)
    : (s: RunSummary)
    ensures s.successful == |successfulDates| && s.failed == |failedDates| && s.totalEvents == |data|
    ensures |s.listed| == if |failedDates| < LISTED_FAILURES then |failedDates| else LISTED_FAILURES
    ensures s.listed == failedDates[..|s.listed|]
    ensures |s.listed| + s.unlisted == |failedDates|
    ensures s.unlisted > 0 <==> |failedDates| > LISTED_FAILURES
    ensures s.listed == [] <==> failedDates == []
  {
    if |failedDates| <= LISTED_FAILURES then
      RunSummary(|successfulDates|, |failedDates|, |data|, failedDates, 0)
    else
      RunSummary(|successfulDates|, |failedDates|, |data|, failedDates[..LISTED_FAILURES],
                 |failedDates| - LISTED_FAILURES)
  }

  /** What a crawl has accumulated: the object's fields and the breaker's counters. */
  datatype CrawlState = CrawlState(
    data: seq<EventRecord>, store: Option<seq<EventRecord>>,
    successfulDates: seq<string>, failedDates: seq<FailedDate>,
    launches: nat, breaker: BreakerState,
    navigations: seq<string>)  // the URLs the browsers were sent to

  /** The URLs a day's attempts visit: the day's page, once per attempt. */
  function DayVisits(r: DayResult): seq<string> {
    Repeat(DayUrl(BASE_URL, r.key), r.outcome.attempts)
  }

  /** One day of scrape_date_range: launch, scrape, then append and save, or count a failure. */
  function DayStep(s: CrawlState, r: DayResult): CrawlState {
    var v := r.outcome.verdict;
    var data := s.data + Returned(v);
    CrawlState(
      data, if v.Scraped? then Some(data) else s.store,
      s.successfulDates + SuccessEntries(r.key, v), s.failedDates + FailureEntries(r.key, v),
      s.launches + 1 + r.outcome.relaunches, Step(s.breaker, v.Scraped?),
      s.navigations + DayVisits(r))
  }

  /** The state after crawling the days `rs` from `s`. */
  function CrawlAfter(s: CrawlState, rs: seq<DayResult>): CrawlState {
    if rs == [] then s else DayStep(CrawlAfter(s, rs[..|rs| - 1]), rs[|rs| - 1])
  }

  /** Crawling one more day is one more DayStep. */
  lemma CrawlAfterExtend(s: CrawlState, rs: seq<DayResult>, r: DayResult)
    ensures CrawlAfter(s, rs + [r]) == DayStep(CrawlAfter(s, rs), r)
  {
    assert (rs + [r])[..|rs|] == rs;
  }

  /** Crawling the first `i + 1` days is crawling the first `i`, then day `i`. */
  lemma CrawlOneMore(s: CrawlState, keys: seq<string>, fetches: seq<seq<Attempt>>, i: nat)
    requires |fetches| == |keys| && i < |keys|
    requires forall i :: 0 <= i < |fetches| ==> MAX_RETRIES <= |fetches[i]|
    ensures CrawlAfter(s, DayResults(keys, fetches)[..i + 1])
      == DayStep(CrawlAfter(s, DayResults(keys, fetches)[..i]), DayResult(keys[i], ScrapeOutcome(fetches[i], keys[i])))
  {
    var rs := DayResults(keys, fetches);
    DayResultsAt(keys, fetches, i);
    PrefixExtends(rs, i);
    CrawlAfterExtend(s, rs[..i], rs[i]);
  }

  lemma PrefixExtends<T>(s: seq<T>, i: nat)
    requires i < |s|
    ensures s[..i + 1] == s[..i] + [s[i]]
  {
  }

  lemma AppendAssociates<T>(a: seq<T>, b: seq<T>, c: seq<T>)
    ensures a + b + c == a + (b + c)
  {
  }

  /**
   * A crawl appends the harvest to the data and the days' entries to the ledger, saves
   * the whole data once some day succeeded, launches one browser per day plus the
   * relaunches, visits each day's page once per attempt, and drives the breaker with
   * the days' successes.
   */
  lemma {:induction false} CrawlAfterParts(s: CrawlState, rs: seq<DayResult>)
    requires s.breaker == BreakerState(0, 0)
    ensures CrawlAfter(s, rs).data == s.data + Harvest(rs)
    ensures CrawlAfter(s, rs).store == if Successes(rs) != [] then Some(s.data + Harvest(rs)) else s.store
    ensures CrawlAfter(s, rs).successfulDates == s.successfulDates + Successes(rs)
    ensures CrawlAfter(s, rs).failedDates == s.failedDates + Failures(rs)
    ensures CrawlAfter(s, rs).launches == s.launches + |rs| + Relaunches(rs)
    ensures CrawlAfter(s, rs).breaker == BreakerAfter(Oks(rs))
    ensures CrawlAfter(s, rs).navigations == s.navigations + Visits(rs)
  {
    if rs != [] {
      var before := rs[..|rs| - 1];
      var r := rs[|rs| - 1];
      CrawlAfterParts(s, before);
      AppendAssociates(s.data, Harvest(before), Returned(r.outcome.verdict));
      AppendAssociates(s.successfulDates, Successes(before), SuccessEntries(r.key, r.outcome.verdict));
      AppendAssociates(s.failedDates, Failures(before), FailureEntries(r.key, r.outcome.verdict));
      AppendAssociates(s.navigations, Visits(before), DayVisits(r));
      var oks := Oks(before);
      assert (oks + [r.outcome.verdict.Scraped?])[..|oks|] == oks;
      if !r.outcome.verdict.Scraped? {
        assert CrawlAfter(s, rs).store == CrawlAfter(s, before).store;
        assert Harvest(rs) == Harvest(before) + [] == Harvest(before);
        assert Successes(rs) == Successes(before) + [] == Successes(before);
      }
    }
  }

  /** Every day of a crawl leaves exactly one ledger entry, a success exactly when it succeeded. */
  lemma {:induction false} OneLedgerEntryPerDay(rs: seq<DayResult>)
    ensures |Successes(rs)| + |Failures(rs)| == |rs|
    ensures |Oks(rs)| == |rs|
    ensures forall i :: 0 <= i < |rs| ==> Oks(rs)[i] == rs[i].outcome.verdict.Scraped?
  {
    if rs != [] {
      var before := rs[..|rs| - 1];
      OneLedgerEntryPerDay(before);
      assert forall i :: 0 <= i < |before| ==> before[i] == rs[i];
    }
  }

  /**
   * Every record a crawl harvests has an event title and the key of a day that
   * succeeded; the harvest is the days' events in day order.
   */
  lemma {:induction false} HarvestFromSuccessfulDays(rs: seq<DayResult>)
    requires forall i :: 0 <= i < |rs| ==> Consistent(rs[i])
    ensures forall k :: 0 <= k < |Harvest(rs)| ==>
      Harvest(rs)[k].event != "" && Harvest(rs)[k].scrapeDate in Successes(rs)
  {
    if rs != [] {
      var before := rs[..|rs| - 1];
      var last := rs[|rs| - 1];
      HarvestFromSuccessfulDays(before);
      var h, hBefore := Harvest(rs), Harvest(before);
      assert h == hBefore + Returned(last.outcome.verdict);
      forall k | 0 <= k < |h|
        ensures h[k].event != "" && h[k].scrapeDate in Successes(rs)
      {
        if k < |hBefore| {
          assert h[k] == hBefore[k];
        } else {
          assert Consistent(last);
          assert h[k] == last.outcome.verdict.events[k - |hBefore|];
        }
      }
    }
  }

  class CalendarScraper {
    /** `self.data`: every record loaded or scraped so far. */
    var data: seq<EventRecord>
    /** The CSV file's rows; None while no file exists. */
    ghost var store: Option<seq<EventRecord>>
    var driver: DriverSlot
    /** How many browsers have been launched. */
    var launches: nat
    var failedDates: seq<FailedDate>
    var successfulDates: seq<string>
    /** The URLs the browser has been sent to. */
    ghost var navigations: seq<string>

    /** What is persisted is what is held: the file, once written, mirrors `data`. */
    ghost predicate Valid()
      reads this
    {
      if store.Some? then store.value == data else data == []
    }

    /** `__init__`: an existing CSV file's rows become the initial data. */
    constructor (loaded: Option<seq<EventRecord>>)
      ensures Valid()
      ensures data == loaded.GetOr([]) && store == loaded
      ensures driver == NoDriver && launches == 0
      ensures failedDates == [] && successfulDates == [] && navigations == []
    {
      data := loaded.GetOr([]);
      store := loaded;
      driver := NoDriver;
      launches := 0;
      failedDates := [];
      successfulDates := [];
      navigations := [];
    }

    /** initialize_driver, as far as this model sees it: a fresh browser. */
    method InitializeDriver()
      modifies this`driver, this`launches
      ensures driver == Open && launches == old(launches) + 1
    {
      driver := Open;
      launches := launches + 1;
    }

    /** Quits a live browser; any error from quitting is swallowed. */
    method QuitDriver()
      modifies this`driver
      ensures driver == if old(driver) == Open then Closed else old(driver)
    {
      if driver == Open {
        driver := Closed;
      }
    }

    /** save_to_csv: the whole file is rewritten with `data`. */
    method SaveToCsv()
      modifies this`store
      ensures store == Some(data)
    {
      store := Some(data);
    }

    /**
     * scrape_date: up to MAX_RETRIES attempts, the i-th seeing `attempts[i]`; the
     * recursion on `retry_count` is the loop on `retry`.
     */
    method ScrapeDate(key: string, attempts: seq<Attempt>) returns (events: seq<EventRecord>, success: bool)
      requires driver == Open
      requires MAX_RETRIES <= |attempts|
      modifies this`driver, this`launches, this`failedDates, this`successfulDates, this`navigations
      ensures success == ScrapeOutcome(attempts, key).verdict.Scraped?
      ensures events == Returned(ScrapeOutcome(attempts, key).verdict)
      ensures successfulDates == old(successfulDates) + SuccessEntries(key, ScrapeOutcome(attempts, key).verdict)
      ensures failedDates == old(failedDates) + FailureEntries(key, ScrapeOutcome(attempts, key).verdict)
      ensures |successfulDates| + |failedDates| == old(|successfulDates| + |failedDates|) + 1
      ensures launches == old(launches) + ScrapeOutcome(attempts, key).relaunches
      ensures driver == Open
      ensures navigations == old(navigations) + Repeat(DayUrl(BASE_URL, key), ScrapeOutcome(attempts, key).attempts)
    {
      var url := DayUrl(BASE_URL, key);
      var retry: nat := 0;
      ghost var relaunched: nat := 0;
      while true
        invariant retry < MAX_RETRIES
        invariant driver == Open
        invariant successfulDates == old(successfulDates) && failedDates == old(failedDates)
        invariant launches == old(launches) + relaunched
        invariant navigations == old(navigations) + Repeat(url, retry)
        invariant ScrapeOutcome(attempts, key)
          == OutcomeFrom(attempts, key, retry).(relaunches := OutcomeFrom(attempts, key, retry).relaunches + relaunched)
        decreases MAX_RETRIES - retry
      {
        navigations := navigations + [url];
        var attempt := attempts[retry];
        if attempt.Loaded? {
          events := ParseCalendar(attempt.page, key);
          if |events| == 0 {
            failedDates := failedDates + [FailedDate(key, NO_EVENTS_FOUND)];
            return [], false;
          }
          successfulDates := successfulDates + [key];
          return events, true;
        }
        var errorMsg := Truncate(ErrorText(attempt), ERROR_LIMIT);
        if retry < MAX_RETRIES - 1 {
          // a pause of 5 to 10 seconds
          if retry >= 1 {
            QuitDriver();
            // a pause of 3 seconds
            InitializeDriver();
            relaunched := relaunched + 1;
          }
          retry := retry + 1;
        } else {
          failedDates := failedDates + [FailedDate(key, errorMsg)];
          return [], false;
        }
      }
    }

    /** The object's accumulations, with the breaker's counters `failures` and `pauses`. */
    ghost function View(failures: nat, pauses: nat): CrawlState
      reads this
    {
      CrawlState(data, store, successfulDates, failedDates, launches, BreakerState(failures, pauses), navigations)
    }

    /**
     * One iteration of scrape_date_range's loop: a fresh browser, the date's scrape, the
     * append and save on success or the breaker's update on failure, and the browser quit
     * and dropped. `out` names the date's outcome.
     */
    method CrawlDay(key: string, attempts: seq<Attempt>, ghost out: DateOutcome, failures: nat, pauses: nat)
      returns (failures': nat, pauses': nat)
      requires Valid()
      requires MAX_RETRIES <= |attempts| && out == ScrapeOutcome(attempts, key)
      modifies this
      ensures Valid()
      ensures View(failures', pauses') == DayStep(old(View(failures, pauses)), DayResult(key, out))
      ensures failures' < FAILURE_THRESHOLD
      ensures driver == NoDriver
    {
      // check_memory: a reading that does not affect the results
      InitializeDriver();
      var events, success := ScrapeDate(key, attempts);
      failures', pauses' := failures, pauses;
      if success {
        data := data + events;
        SaveToCsv();
        failures' := 0;
      } else {
        failures' := failures' + 1;
        if failures' >= FAILURE_THRESHOLD {
          // the 30-second pause
          pauses' := pauses' + 1;
          failures' := 0;
        }
      }
      QuitDriver();
      driver := NoDriver;
    }

    /**
     * The `try` block of scrape_date_range: the walk over the keys of consecutive days,
     * the i-th seeing `fetches[i]`, with the breaker's counters.
     */
    method CrawlDays(keys: seq<string>, fetches: seq<seq<Attempt>>) returns (failures: nat, pauses: nat)
      requires Valid()
      requires |fetches| == |keys|
      requires forall i :: 0 <= i < |keys| ==> MAX_RETRIES <= |fetches[i]|
      modifies this
      ensures Valid()
      ensures View(failures, pauses) == CrawlAfter(old(View(0, 0)), DayResults(keys, fetches))
      ensures driver == if keys == [] then old(driver) else NoDriver
    {
      ghost var start := View(0, 0);
      failures, pauses := 0, 0;
      var i := 0;
      while i < |keys|
        invariant 0 <= i <= |keys|
        invariant Valid()
        invariant View(failures, pauses) == CrawlAfter(start, DayResults(keys, fetches)[..i])
        invariant driver == if i == 0 then old(driver) else NoDriver
      {
        CrawlOneMore(start, keys, fetches, i);
        failures, pauses := CrawlDay(keys[i], fetches[i], ScrapeOutcome(fetches[i], keys[i]), failures, pauses);
        // a pause of 5 to 10 seconds before the next day
        i := i + 1;
      }
      assert DayResults(keys, fetches)[..i] == DayResults(keys, fetches);
    }

    /**
     * scrape_date_range: the crawl, then the `finally` that quits a browser still held;
     * returns how many long pauses the breaker took.
     */
    method ScrapeDateRange(days: seq<Day>, fetches: seq<seq<Attempt>>) returns (longPauses: nat)
      requires Valid()
      requires |fetches| == |days|
      requires forall i :: 0 <= i < |days| ==> InRange(days[i]) && MAX_RETRIES <= |fetches[i]|
      modifies this
      ensures Valid()
      ensures var final := CrawlAfter(old(View(0, 0)), DayResults(Keys(days), fetches));
        && data == final.data && store == final.store
        && successfulDates == final.successfulDates && failedDates == final.failedDates
        && launches == final.launches && longPauses == final.breaker.pauses
        && navigations == final.navigations
      ensures driver == if days != [] then NoDriver else if old(driver) == Open then Closed else old(driver)
    {
      var consecutiveFailures;
      consecutiveFailures, longPauses := CrawlDays(Keys(days), fetches);
      if driver != NoDriver {
        QuitDriver();
      }
    }

    /** scrape_single_date: one date in a fresh browser, which is quit but stays referenced. */
    method ScrapeSingleDate(key: string, attempts: seq<Attempt>)
      requires Valid()
      requires MAX_RETRIES <= |attempts|
      modifies this
      ensures Valid()
      ensures data == old(data) + Returned(ScrapeOutcome(attempts, key).verdict)
      ensures store == if ScrapeOutcome(attempts, key).verdict.Scraped? then Some(data) else old(store)
      ensures successfulDates == old(successfulDates) + SuccessEntries(key, ScrapeOutcome(attempts, key).verdict)
      ensures failedDates == old(failedDates) + FailureEntries(key, ScrapeOutcome(attempts, key).verdict)
      ensures launches == old(launches) + 1 + ScrapeOutcome(attempts, key).relaunches
      ensures navigations == old(navigations) + Repeat(DayUrl(BASE_URL, key), ScrapeOutcome(attempts, key).attempts)
      ensures driver == Closed
    {
      InitializeDriver();
      var events, success := ScrapeDate(key, attempts);
      if success {
        data := data + events;
        SaveToCsv();
      }
      if driver != NoDriver {
        QuitDriver();
      }
    }

    /** The summary print_summary prints for the current state. */
    function Summary(): RunSummary
      reads this
    {
      SummaryOf(successfulDates, failedDates, data)
    }
  }
}
