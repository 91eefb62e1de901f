/**
 * The bookings page: a status change made through the store followed by a fresh copy
 * of the store's list, and the CSV export, which joins raw field text with commas and
 * lines with "\n" (no quoting in the manner of section 2 of RFC 4180).
 */
module Bookings {
  import Js
  import Db

  const Headers: seq<string> := ["Reference", "Customer", "Email", "Package", "People", "Amount", "Guide", "Status", "Date"]

  /** One booking's cells in header order; numbers are written as `String(n)`. */
  function Fields(b: Db.Booking): (r: seq<string>)
    ensures |r| == |Headers|
  {
    [b.ref, b.customer, b.email, b.package, Js.IntToString(b.people), Js.IntToString(b.amount),
     b.guide, b.status, b.date]
  }

  function HeaderLine(): string {
    Js.Join(Headers, ",")
  }

  /** `row.join(',')`. */
  function RowLine(b: Db.Booking): string {
    Js.Join(Fields(b), ",")
  }

  function Lines(bookings: seq<Db.Booking>): (r: seq<string>)
    ensures |r| == |bookings| + 1 && r[0] == HeaderLine()
    ensures forall i :: 0 <= i < |bookings| ==> r[i + 1] == RowLine(bookings[i])
  {
    [HeaderLine()] + seq(|bookings|, i requires 0 <= i < |bookings| => RowLine(bookings[i]))
  }

  /** `csvContent`: the lines joined with "\n", no trailing newline. */
  function CsvContent(bookings: seq<Db.Booking>): string {
    Js.Join(Lines(bookings), "\n")
  }

  /** Some cell of the booking contains `c`. */
  predicate HasInCell(b: Db.Booking, c: char) {
    exists i :: 0 <= i < |Fields(b)| && c in Fields(b)[i]
  }

  lemma NumberCellsFree(b: Db.Booking, c: char)
    requires c == ',' || c == '\n'
    ensures c !in Fields(b)[4] && c !in Fields(b)[5]
  {
    Js.IntToStringFree(b.people, c);
    Js.IntToStringFree(b.amount, c);
  }

  lemma HeadersFree(c: char)
    requires c == ',' || c == '\n'
    ensures forall i :: 0 <= i < |Headers| ==> c !in Headers[i]
  {
  }

  /** A row line splits back on "," into the booking's nine cells exactly when no cell contains a comma. */
  lemma RowRoundTrip(b: Db.Booking)
    ensures Js.Split(RowLine(b), ',') == Fields(b) <==> !HasInCell(b, ',')
  {
    if !HasInCell(b, ',') {
      Js.SplitJoin(Fields(b), ',');
    } else {
      Js.SplitSegmentsFree(RowLine(b), ',');
    }
  }

  /** The number of lines is the number of bookings plus one, and each line is one record, exactly when no cell contains a newline. */
  lemma LinesRoundTrip(bookings: seq<Db.Booking>)
    ensures Js.Split(CsvContent(bookings), '\n') == Lines(bookings)
        <==> forall i :: 0 <= i < |bookings| ==> !HasInCell(bookings[i], '\n')
  {
    var ls := Lines(bookings);
    if forall i :: 0 <= i < |bookings| ==> !HasInCell(bookings[i], '\n') {
      HeadersFree('\n');
      Js.JoinFree(Headers, ",", '\n');
      forall k | 0 <= k < |ls| ensures '\n' !in ls[k] {
        if k > 0 {
          Js.JoinFree(Fields(bookings[k - 1]), ",", '\n');
        }
      }
      Js.SplitJoin(ls, '\n');
    } else {
      var i :| 0 <= i < |bookings| && HasInCell(bookings[i], '\n');
      var j :| 0 <= j < |Fields(bookings[i])| && '\n' in Fields(bookings[i])[j];
      Js.JoinHas(Fields(bookings[i]), ",", '\n', j);
      assert '\n' in ls[i + 1];
      Js.SplitSegmentsFree(CsvContent(bookings), '\n');
    }
  }

  /** With no newline in any cell, the export has one line per booking plus the header line. */
  lemma LineCount(bookings: seq<Db.Booking>)
    requires forall i :: 0 <= i < |bookings| ==> !HasInCell(bookings[i], '\n')
    ensures |Js.Split(CsvContent(bookings), '\n')| == |bookings| + 1
  {
    LinesRoundTrip(bookings);
  }

  /** A customer name with a comma yields a row that does not read back as the booking's cells. */
  lemma CommaInNameShiftsCells()
    ensures var b := Db.Booking("1", "WW-1", "Doe, Jane", "jd@example.com", "Mara", 2, 900, "", "pending", "2026-01-01");
            Js.Split(RowLine(b), ',') != Fields(b)
  {
    var b := Db.Booking("1", "WW-1", "Doe, Jane", "jd@example.com", "Mara", 2, 900, "", "pending", "2026-01-01");
    assert ',' in Fields(b)[1];
    RowRoundTrip(b);
  }

  class BookingsPage {
    const db: Db.Database
    /** The list the table and the export use. */
    var bookings: seq<Db.Booking>
    /** The search box text; nothing reads it. */
    var search: string

    constructor (db: Db.Database)
      ensures this.db == db && bookings == db.recentBookings.rows && search == ""
    {
      this.db := db;
      bookings := db.recentBookings.rows;
      search := "";
    }

    /** `handleStatusChange`: the store's update, then a copy of the store's list. */
    method HandleStatusChange(id: string, status: string)
      modifies db.recentBookings, this`bookings
      ensures db.recentBookings.rows == Db.SetStatus(old(db.recentBookings.rows), id, status)
      ensures bookings == db.recentBookings.rows && search == old(search)
    {
      Db.UpdateBookingStatus(db, id, status);
      bookings := db.recentBookings.rows;
    }

    /** Typing in the search box changes only the text. */
    method SetSearch(text: string)
      modifies this`search
      ensures search == text && bookings == old(bookings)
    {
      search := text;
    }

    /** The text `exportToCSV` downloads: the current list, regardless of the search text. */
    method ExportToCsv() returns (content: string)
      ensures content == CsvContent(bookings)
    {
      content := Js.Join(Lines(bookings), "\n");
    }
  }

  /** Searching and then exporting gives the same text as exporting straight away. */
  method SearchDoesNotFilter(page: BookingsPage, text: string) returns (before: string, after: string)
    modifies page
    ensures before == after
  {
    before := page.ExportToCsv();
    page.SetSearch(text);
    after := page.ExportToCsv();
  }
}
