/**
 * The calendar page parser (scraper.py, `parse_calendar`). The HTML library is replaced
 * by an abstract page: a table body holding rows whose cells carry already-stripped text.
 */
module CalendarParser {
  import opened Wrappers

  const DAY_BREAKER_CLASS: string := "calendar__row--day-breaker"
  const ROW_CLASS: string := "calendar__row"
  const IMPACT_RED: string := "icon--ff-impact-red"
  const IMPACT_ORANGE: string := "icon--ff-impact-ora"
  const IMPACT_YELLOW: string := "icon--ff-impact-yel"

  /** A `td` whose value sits in an inner `span`: no such cell, a cell without the span, or the span's text. */
  datatype SpanCell = NoCell | NoSpan | Span(text: string)

  /** The `td.calendar__impact` cell: absent, present without a `span.icon`, or the icon's class list. */
  datatype ImpactCell = NoImpactCell | NoIcon | Icon(classes: seq<string>)

  /** One `tr` of the table body. */
  datatype Row = Row(
    classes: seq<string>,         // the row's class attribute
    breakerCell: Option<string>,  // text of its first `td.calendar__cell`
    dateCell: Option<string>,     // text of `td.calendar__date`
    time: SpanCell,               // `td.calendar__time`
    currency: SpanCell,           // `td.calendar__currency`
    impact: ImpactCell,           // `td.calendar__impact`
    title: SpanCell,              // `span.calendar__event-title` inside `td.calendar__event`
    eventId: Option<string>,      // the `data-event-id` attribute
    actual: SpanCell,             // `td.calendar__actual`
    forecast: SpanCell,           // `td.calendar__forecast`
    previous: SpanCell)           // `td.calendar__previous`

  /** The rendered document: no `table.calendar__table`, a table without `tbody`, or its rows. */
  datatype Page = NoTable | NoBody | Body(rows: seq<Row>)

  /** One calendar event, as stored and persisted. */
  datatype EventRecord = EventRecord(
    scrapeDate: string, date: string, time: string, currency: string, impact: string,
    event: string, hasDetail: bool, actual: string, forecast: string, previous: string)

  predicate IsDayBreaker(r: Row) {
    DAY_BREAKER_CLASS in r.classes
  }

  /** A row the parser reads fields from: not a day-breaker, and a `calendar__row`. */
  predicate IsDataRow(r: Row) {
    !IsDayBreaker(r) && ROW_CLASS in r.classes
  }

  /** A day-breaker that changes the carried date label. */
  predicate SetsLabel(r: Row) {
    IsDayBreaker(r) && r.breakerCell.Some?
  }

  function SpanText(c: SpanCell): string {
    if c.Span? then c.text else ""
  }

  /** The impact of an icon's class list; the first matching colour wins. */
  function ImpactLabel(classes: seq<string>): (rating: string)
    ensures rating == "High" <==> IMPACT_RED in classes
    ensures rating == "Medium" <==> IMPACT_RED !in classes && IMPACT_ORANGE in classes
    ensures rating == "Low" <==> IMPACT_RED !in classes && IMPACT_ORANGE !in classes && IMPACT_YELLOW in classes
    ensures rating == "" <==> IMPACT_RED !in classes && IMPACT_ORANGE !in classes && IMPACT_YELLOW !in classes
  {
    if IMPACT_RED in classes then "High"
    else if IMPACT_ORANGE in classes then "Medium"
    else if IMPACT_YELLOW in classes then "Low"
    else ""
  }

  function ImpactOf(c: ImpactCell): string {
    if c.Icon? then ImpactLabel(c.classes) else ""
  }

  /** The date label in effect after visiting `r` with `carried` in effect before it. */
  function NextLabel(carried: string, r: Row): string {
    if SetsLabel(r) then r.breakerCell.value else carried
  }

  /** The record of a data row, given the carried date label and the page's key. */
  function ToRecord(r: Row, carried: string, key: string): (e: EventRecord)
    ensures e.scrapeDate == key
    ensures e.date == (if r.dateCell.Some? && r.dateCell.value != "" then r.dateCell.value else carried)
    ensures e.impact in {"High", "Medium", "Low", ""}
    ensures !r.impact.Icon? ==> e.impact == ""
    ensures e.hasDetail <==> r.eventId.Some? && r.eventId.value != ""
    ensures !r.time.Span? ==> e.time == ""
    ensures !r.currency.Span? ==> e.currency == ""
    ensures !r.title.Span? ==> e.event == ""
    ensures !r.actual.Span? ==> e.actual == ""
    ensures !r.forecast.Span? ==> e.forecast == ""
    ensures !r.previous.Span? ==> e.previous == ""
  {
    EventRecord(
      key,
      if r.dateCell.Some? && r.dateCell.value != "" then r.dateCell.value else carried,
      SpanText(r.time),
      SpanText(r.currency),
      ImpactOf(r.impact),
      SpanText(r.title),
      r.eventId.Some? && r.eventId.value != "",
      SpanText(r.actual),
      SpanText(r.forecast),
      SpanText(r.previous))
  }

  /**
   * A record carries what its row shows: each present span's text, and the impact of a
   * present icon's class list.
   */
  lemma RecordCarriesRow(r: Row, carried: string, key: string)
    ensures var e := ToRecord(r, carried, key);
      && (r.time.Span? ==> e.time == r.time.text)
      && (r.currency.Span? ==> e.currency == r.currency.text)
      && (r.title.Span? ==> e.event == r.title.text)
      && (r.actual.Span? ==> e.actual == r.actual.text)
      && (r.forecast.Span? ==> e.forecast == r.forecast.text)
      && (r.previous.Span? ==> e.previous == r.previous.text)
      && (r.impact.Icon? ==> e.impact == ImpactLabel(r.impact.classes))
  {
  }

  /** A row that yields a record: a data row with a non-empty event title. */
  predicate Yields(r: Row) {
    IsDataRow(r) && SpanText(r.title) != ""
  }

  /** The date label carried after walking `rows` from the start (initially empty). */
  function CarriedLabel(rows: seq<Row>): string {
    if rows == [] then "" else NextLabel(CarriedLabel(rows[..|rows| - 1]), rows[|rows| - 1])
  }

  /** The records of a table body, walking its rows in order. */
  function Events(rows: seq<Row>, key: string): (es: seq<EventRecord>)
    ensures |es| <= |rows|
    ensures forall k :: 0 <= k < |es| ==> es[k].event != "" && es[k].scrapeDate == key
  {
    if rows == [] then []
    else
      var last := rows[|rows| - 1];
      var before := rows[..|rows| - 1];
      Events(before, key)
      + (if Yields(last) then [ToRecord(last, CarriedLabel(before), key)] else [])
  }

  /** The indices of the rows that yield a record, in order. */
  function Sources(rows: seq<Row>): (ix: seq<nat>)
    ensures forall k :: 0 <= k < |ix| ==> ix[k] < |rows|
    ensures forall k, l :: 0 <= k < l < |ix| ==> ix[k] < ix[l]
    ensures forall i :: 0 <= i < |rows| ==> (i in ix <==> Yields(rows[i]))
  {
    if rows == [] then []
    else Sources(rows[..|rows| - 1]) + (if Yields(rows[|rows| - 1]) then [|rows| - 1] else [])
  }

  /** parse_calendar's result on a whole page: nothing without a table or a body. */
  function ParsePage(p: Page, key: string): seq<EventRecord> {
    if p.Body? then Events(p.rows, key) else []
  }

  /** parse_calendar: one left-to-right walk carrying the current date label. */
  method ParseCalendar(page: Page, key: string) returns (events: seq<EventRecord>)
    ensures events == ParsePage(page, key)
  {
    if !page.Body? {
      return [];
    }
    var rows := page.rows;
    var carried := "";
    events := [];
    var i := 0;
    while i < |rows|
      invariant 0 <= i <= |rows|
      invariant carried == CarriedLabel(rows[..i])
      invariant events == Events(rows[..i], key)
    {
      var row := rows[i];
      assert rows[..i + 1][..i] == rows[..i];
      if DAY_BREAKER_CLASS in row.classes {
        if row.breakerCell.Some? {
          carried := row.breakerCell.value;
        }
      } else if ROW_CLASS in row.classes {
        var record := ToRecord(row, carried, key);
        if record.event != "" {
          events := events + [record];
        }
      }
      i := i + 1;
    }
    assert rows[..i] == rows;
  }

  /**
   * Records come from their rows, in row order: the k-th record is the record of the
   * k-th yielding row, built with the date label carried up to that row.
   */
  lemma {:induction false} EventsFollowSources(rows: seq<Row>, key: string)
    ensures |Events(rows, key)| == |Sources(rows)|
    ensures forall k :: 0 <= k < |Sources(rows)| ==>
      Events(rows, key)[k] == ToRecord(rows[Sources(rows)[k]], CarriedLabel(rows[..Sources(rows)[k]]), key)
  {
    if rows != [] {
      var n := |rows| - 1;
      var before := rows[..n];
      EventsFollowSources(before, key);
      var es, ix := Events(rows, key), Sources(rows);
      var esBefore, ixBefore := Events(before, key), Sources(before);
      assert es == esBefore + (if Yields(rows[n]) then [ToRecord(rows[n], CarriedLabel(before), key)] else []);
      assert ix == ixBefore + (if Yields(rows[n]) then [n] else []);
      forall k | 0 <= k < |ix|
        ensures es[k] == ToRecord(rows[ix[k]], CarriedLabel(rows[..ix[k]]), key)
      {
        if k < |ixBefore| {
          EarlierSourceUnchanged(rows, ixBefore[k]);
          assert es[k] == esBefore[k] && ix[k] == ixBefore[k];
        } else {
          assert ix[k] == n && rows[..n] == before;
        }
      }
    }
  }

  /** Dropping the last row leaves every earlier row, and the rows before it, as they were. */
  lemma EarlierSourceUnchanged(rows: seq<Row>, i: nat)
    requires i < |rows| - 1
    ensures rows[i] == rows[..|rows| - 1][i] && rows[..i] == rows[..|rows| - 1][..i]
  {
  }

  /**
   * The carried date label is the cell text of the latest day-breaker that has one,
   * or empty when no such breaker precedes.
   */
  lemma {:induction false} CarriedLabelIsLatestBreaker(rows: seq<Row>)
    ensures (forall j :: 0 <= j < |rows| ==> !SetsLabel(rows[j])) ==> CarriedLabel(rows) == ""
    ensures forall j ::
      (0 <= j < |rows| && SetsLabel(rows[j]) && forall k :: j < k < |rows| ==> !SetsLabel(rows[k]))
      ==> CarriedLabel(rows) == rows[j].breakerCell.value
  {
    if rows != [] {
      var n := |rows| - 1;
      var before := rows[..n];
      CarriedLabelIsLatestBreaker(before);
      assert forall j :: 0 <= j < n ==> before[j] == rows[j];
    }
  }

  /** The page's example: a red icon and the title `Core CPI m/m`. */
  lemma CoreCpiExample(key: string)
    ensures var row := Row(["calendar__row"], None, None, NoCell, NoCell,
                           Icon(["icon", "icon--ff-impact-red"]), Span("Core CPI m/m"),
                           None, NoCell, NoCell, NoCell);
      var es := Events([row], key);
      |es| == 1 && es[0].impact == "High" && es[0].event == "Core CPI m/m"
  {
  }
}
