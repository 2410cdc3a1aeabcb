# ForexFactory calendar scraper, modelled in Dafny

This project models the deterministic core of `scraper.py`, the
`ForexFactoryCalendarScraper` that crawls the ForexFactory economic calendar one
day at a time. The browser, the HTML library, the clock and pandas are treated as
oracles. What remains is modelled and its properties are proved.

- `date_key.dfy` (module `DateKey`): `generate_date_string`. It turns a day into
  its key `mmmDD.YYYY` (for example `jan01.2019`) and the page URL
  `base_url + "?day=" + key`. An inverse, `ParseDateKey`, states that keys are
  unambiguous: each key reads back as its day, and each readable key is the key of
  that day.
- `calendar_parser.dfy` (module `CalendarParser`): `parse_calendar`. The page is an
  abstract `Page`, meaning no table, a table without a body, or a body of `Row`s
  whose cells already hold stripped text. `ParseCalendar` is the source's
  left-to-right loop, which carries the current date label. It is proved equal to
  the recursive specification `Events`. The lemmas about `Events` cover:
  - the inclusion filter
  - the impact mapping
  - the order of the records
  - date inheritance
- `date_scrape.dfy` (module `DateScrape`): the retry state machine of
  `scrape_date`, as a function of what each attempt sees. An attempt sees one of
  three things: an exception with a message, the table never loading, or a loaded
  page.
- `breaker.dfy` (module `Breaker`): the consecutive-failure breaker of
  `scrape_date_range`.
- `scraper.dfy` (module `Scraper`): the scraper object as the class
  `CalendarScraper`. Its fields are:
  - `data`
  - `failed_dates`
  - `successful_dates`
  - the driver slot
  - a launch counter
  - the ghost CSV store
  - the ghost list of visited URLs

  Its methods are `__init__`, `scrape_date`, `scrape_date_range`,
  `scrape_single_date` and `save_to_csv`. Each is proved against specification
  functions. The summary that `print_summary` prints is the function `SummaryOf`.
- `wrappers.dfy`: an `Option` type.

The class invariant `Valid()` says that once the CSV file exists it holds exactly
`data`. Saving rewrites the whole file. The constructor's loaded rows are the
initial prefix of `data`.

A date that gives up records the last error's text cut to 100 characters
(`str(e)[:100]`). That text is empty for an exception raised without a message,
so the recorded reason is not always non-empty
(`SilentErrorRecordsEmptyReason`).

## Model

| member | source | states |
|---|---|---|
| `DateKey.TwoDigits` | scraper.py:85 | `%d` gives two decimal digits whose value is the day |
| `DateKey.FourDigits` | scraper.py:86 | `%Y` gives four decimal digits whose value is the year. It is used only for years 1000..9999, the range in which `%Y` prints exactly four digits |
| `DateKey.GenerateDateString` | scraper.py:83-87 | the key is 10 characters: the lower-case month abbreviation, two digits holding the day, `.`, four digits holding the year |
| `DateKey.ParseDateKey` | scraper.py:83-87 | reading a key back yields only days the formatter accepts |
| `DateKey.KeyRoundTrip` | scraper.py:83-87 | every day's key reads back as that day, so different days never share a key |
| `DateKey.ParsedKeyRoundTrip` | scraper.py:83-87 | every string that reads back as a day is exactly that day's key |
| `DateKey.DistinctDaysDistinctKeys` | scraper.py:83-87 | two different days in range never get the same key |
| `DateKey.FirstDayKey` | scraper.py:83-87 | 2019-01-01 gives `jan01.2019` |
| `DateKey.DayUrlNamesDay` | scraper.py:209 | the URL is the base URL, then `?day=`, then the key, from which the day can be read back |
| `CalendarParser.ImpactLabel` | scraper.py:165-173 | High iff the red class is present; Medium iff orange and not red; Low iff yellow and neither of the others; empty iff none of the three |
| `CalendarParser.ToRecord` | scraper.py:143-202 | the record carries the page's key and the row's own non-empty date cell, else the carried label. A missing cell or span gives "". The impact is one of four labels and "" without an icon. `has_detail` holds iff `data-event-id` is present and non-empty. What a present span or icon gives is stated by `RecordCarriesRow` |
| `CalendarParser.RecordCarriesRow` | scraper.py:149-202 | each present span's text becomes its field (time, currency, event from the title, actual, forecast, previous), and a present icon's impact is `ImpactLabel` of its classes |
| `CalendarParser.Events` | scraper.py:130-205 | there are never more records than rows; every record has a non-empty event and the page's key as `scrape_date` |
| `CalendarParser.Sources` | scraper.py:134-143 | the rows that yield records, in increasing order: exactly the `calendar__row` rows that are not day-breakers and have a non-empty title |
| `CalendarParser.ParseCalendar` | scraper.py:119-205 | the imperative row walk returns `Events` of the table body, and nothing without a table or body |
| `CalendarParser.EventsFollowSources` | scraper.py:134-204 | the k-th record is the record of the k-th yielding row, built with the label carried up to that row, so the records keep the rows' order |
| `CalendarParser.CarriedLabelIsLatestBreaker` | scraper.py:131-148 | the carried label is the cell text of the latest day-breaker that has a cell; it is "" when there is none |
| `CalendarParser.CoreCpiExample` | scraper.py:161-204 | a data row with a red icon and a title yields one record with impact High |
| `DateScrape.Truncate` | scraper.py:224 | `s[:100]`: a prefix of `s`, `s` itself when short enough, else exactly 100 characters |
| `DateScrape.OutcomeFrom` | scraper.py:207-241 | at most `max_retries` attempts. A success carries non-empty events belonging to the key. Giving up happens after exactly `max_retries` attempts, with a reason of at most 100 characters. There are fewer relaunches than attempts |
| `DateScrape.FailuresPassOn` | scraper.py:223-238 | failed attempts only hand the date on to the next attempt, each retry from attempt 1 on adding one relaunch |
| `DateScrape.FirstLoadedDecides` | scraper.py:207-238 | the first loaded attempt ends the date: with its events, or with none and no retry. The relaunches are the retries left from attempts numbered 1 and up |
| `DateScrape.NoneLoadedGivesUp` | scraper.py:223-241 | with no attempt loaded, the date gives up after the last attempt with the last error, cut to 100 characters |
| `DateScrape.AllAttemptsFail` | scraper.py:223-241 | when every attempt fails: exactly 3 attempts, 1 relaunch (`max_retries - 2`), and the last error cut to 100 characters |
| `DateScrape.SilentErrorRecordsEmptyReason` | scraper.py:224 | a last exception without a message gives an empty recorded reason |
| `DateScrape.EmptyPageIsFinal` | scraper.py:214-219 | a first attempt that loads a page with no events ends the date after one attempt with no relaunch |
| `Breaker.BreakerAfter` | scraper.py:264-270 | the counter stays below 3 after every date; three times the pauses plus the counter never exceeds the number of dates |
| `Breaker.BreakerCountsRuns` | scraper.py:264-270 | the counter is the length of the current failure run modulo 3, and a long pause is taken at every third failure of a run |
| `Breaker.ThreeFailuresPauseOnce` | scraper.py:264-270 | from zero, three failures take exactly one pause and reset the counter; a success on the third resets it without a pause |
| `Scraper.KeysNameTheirDays` | scraper.py:249-251 | different days of the walk get different keys, so each ledger entry names one day |
| `Scraper.DayResults` | scraper.py:249-260 | one result per day of the walk |
| `Scraper.DayResultsAt` | scraper.py:260 | day i's result is `scrape_date` on day i's key with day i's attempts |
| `Scraper.CrawlAfterParts` | scraper.py:258-270 | a crawl appends the harvested events to `data`; once a day has succeeded, the store is the whole of `data`. It appends the days' ledger entries in day order, launches one browser per day plus the relaunches, drives the breaker with the days' successes, and visits each day's URL once per attempt, in day order |
| `Scraper.OneLedgerEntryPerDay` | scraper.py:260 | each day leaves exactly one entry in `successful_dates` or `failed_dates` |
| `Scraper.HarvestFromSuccessfulDays` | scraper.py:260-263 | every harvested record has a non-empty event and the key of a day that succeeded |
| `Scraper.SummaryOf` | scraper.py:313-328 | the counts of successes, failures and events. It lists the first min(10, number of failed dates) failed dates; the "... and N more" count makes up the rest and is shown iff there are more than 10 failed dates |
| `Scraper.CalendarScraper.constructor` | scraper.py:17-29 | `data` is the CSV file's rows when the file exists, else empty; both ledgers are empty; there is no driver |
| `Scraper.CalendarScraper.InitializeDriver` | scraper.py:257-258 | a fresh browser is open and one more has been launched |
| `Scraper.CalendarScraper.QuitDriver` | scraper.py:273-276 | a live browser is quit; otherwise nothing happens, and no error escapes |
| `Scraper.CalendarScraper.SaveToCsv` | scraper.py:330-332 | the store becomes exactly `data` |
| `Scraper.CalendarScraper.ScrapeDate` | scraper.py:207-241 | returns the outcome's events and success, and appends exactly one ledger entry (the key on success, else the key with "No events found" or the truncated error). It launches one browser per relaunch, visits the day's URL once per attempt, and leaves a browser open |
| `Scraper.CalendarScraper.CrawlDay` | scraper.py:250-277 | one loop iteration: the data grows by the day's events and is saved on success; the ledger and breaker are updated; the counter stays below 3; the driver is None afterwards |
| `Scraper.CalendarScraper.CrawlDays` | scraper.py:244-282 | the loop leaves the state `CrawlAfter` of the days' results, starting from a zero breaker; the driver is None once a day has run |
| `Scraper.CalendarScraper.ScrapeDateRange` | scraper.py:243-293 | `data`, the store, both ledgers, the launches, the long pauses and the visited URLs are those of the crawl over the days' keys. Afterwards the driver is None, or has been quit when there were no days |
| `Scraper.CalendarScraper.ScrapeSingleDate` | scraper.py:295-311 | `data` grows by the date's events and is saved on success; one ledger entry is appended; the date's URL is visited once per attempt; the browser is quit but stays referenced |

## Left out

- Browser launch (`initialize_driver`, scraper.py:32-69) is modelled as "a fresh open browser" that always succeeds. Its options and stealth script are foreign calls. An exception while relaunching inside `scrape_date`'s handler would escape to the loop's fatal handler; that case is not modelled.
- Waiting for the table (`wait_for_calendar_table`, scraper.py:89-117) is reduced to the `TableMissing` attempt, which fails with "Calendar table failed to load". Its timeouts and selector polling are external.
- `check_memory` (scraper.py:71-81) is left out. It reads the host's memory and does not affect results.
- Every `time.sleep` and `random.uniform` pause is timing only. The code marks where pauses occur, and the breaker counts the long pauses.
- BeautifulSoup and `get_text(strip=True)` are replaced by the `Row` datatype, whose cells already hold stripped text.
- CSV reading and writing through pandas (scraper.py:27-29, 330-332) are left out. The loaded rows are handed to the constructor as records, and pandas' type coercion on reload (NaN for empty cells, numbers) is not modelled. The store is a ghost value overwritten with `data`.
- Logging and the text `print_summary` prints are left out. Only the figures it prints are modelled (`SummaryOf`, `CalendarScraper.Summary`).
- The `KeyboardInterrupt` and fatal-exception handlers of `scrape_date_range` (scraper.py:283-286) and the `__main__` bootstrap (scraper.py:335-343) are left out. A crawl in the model always runs to its last day.
- Date arithmetic with `datetime` and `timedelta` is left out. The walk from start to end inclusive is given as the sequence of its days, so the loop runs once per given day. Consecutiveness and calendar validity (such as 30 February) are not checked.
- ScrapeDateRange generates the days' keys before the loop rather than at the top of each iteration. `generate_date_string` is pure, so the keys and the order of the scrapes are the same.
- GenerateDateString: years are limited to 1000..9999. Below 1000, how many digits `%Y` prints depends on the platform's C library.
- ScrapeDate requires an open browser, because every caller in the source launches one first. It also requires the oracle to describe at least `max_retries` attempts.
- CalendarScraper: `self.base_url`, `self.timeout` and `self.csv_file` are constants in the model.
