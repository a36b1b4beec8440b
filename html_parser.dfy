/** The Python API's HTML readers (`app/utils/html_parser.py`): the login
    check, the availability scan, the booking confirmation check. The id
    extractor is `BookingUrl.FindEditId`, shared with the Go client. */
module HtmlParser {
  import opened Wrappers
  import opened Models
  import opened Strings
  import opened Forms
  import GoClient

  const BookingFailedMessage := "Booking failed - time slot may no longer be available"

  /** `parse_login_response`: false without a title, otherwise whether the
      first title, stripped, starts with "Welcome" (case matters). */
  function ParseLoginResponse(page: Page): (r: bool)
    ensures page.titles == [] ==> !r
    ensures page.titles != [] ==> (r <==> HasPrefix(TrimSpace(page.titles[0]), "Welcome"))
  {
    page.titles != [] && HasPrefix(TrimSpace(page.titles[0]), "Welcome")
  }

  /** The Python check strips the title and the Go check does not: a title
      with a leading blank logs in here and not there. */
  lemma LoginChecksDiffer(title: string)
    requires IsTrimmed(title) && HasPrefix(title, "Welcome")
    ensures ParseLoginResponse(Page([" " + title], [], []))
    ensures !HasPrefix(Concat([" " + title]), "Welcome")
  {
    var t := " " + title;
    assert t[1..] == title;
    assert LeadingSpaces(title) == 0;
    assert LeadingSpaces(t) == 1;
    assert TrailingSpaces(title) == 0;
    assert TrimSpace(t) == title;
    assert Concat([t]) == t + Concat([]);
    assert t[0] != "Welcome"[0];
  }

  /** On a page with one title that has no surrounding blanks both checks agree. */
  lemma LoginChecksAgreeOnTrimmedTitle(title: string)
    requires IsTrimmed(title)
    ensures ParseLoginResponse(Page([title], [], [])) == HasPrefix(Concat([title]), "Welcome")
  {
    TrimSpaceOfTrimmed(title);
    assert Concat([title]) == title + Concat([]);
  }

  /** A row is read only when it has a `th`; it yields a slot under the same
      rule as the Go client. */
  predicate Offered(row: Row) {
    row.headers != [] && GoClient.Offered(row)
  }

  /** The slot a row yields: the first `th` text stripped, the button flag and
      the form under the Python capture rule. */
  function SlotOf(row: Row): TimeSlot {
    TimeSlot(if row.headers == [] then "" else TrimSpace(row.headers[0]), row.inlineBooking, FormOf(row.slotActionInputs, PyRule))
  }

  /** `parse_availability`. */
  method ParseAvailability(rows: seq<Row>) returns (slots: seq<TimeSlot>)
    ensures slots == GoClient.SlotsOf(rows, Offered, SlotOf)
  {
    slots := [];
    var i := 0;
    while i < |rows|
      invariant 0 <= i <= |rows|
      invariant slots == GoClient.SlotsOf(rows[..i], Offered, SlotOf)
    {
      assert rows[..i + 1][..i] == rows[..i];
      var row := rows[i];
      i := i + 1;
      if row.headers == [] {
        continue;
      }
      var time := TrimSpace(row.headers[0]);
      var bookingButton := row.inlineBooking;
      var peopleBooked := row.playerName;
      var blocked := row.compItem;
      var form := CaptureForm(row.slotActionInputs, PyRule);
      if !peopleBooked && !blocked && bookingButton {
        slots := slots + [TimeSlot(time, bookingButton, form)];
      }
    }
    assert rows[..i] == rows;
  }

  /** Every slot returned is bookable with a trimmed time label, and every
      offered row yields its slot. */
  lemma AvailabilityRowRule(rows: seq<Row>)
    ensures forall s :: s in GoClient.SlotsOf(rows, Offered, SlotOf) ==> s.canBook && IsTrimmed(s.time)
    ensures forall row :: row in rows && Offered(row) ==> SlotOf(row) in GoClient.SlotsOf(rows, Offered, SlotOf)
  {
    forall s | s in GoClient.SlotsOf(rows, Offered, SlotOf)
      ensures s.canBook && IsTrimmed(s.time)
    {
      GoClient.SlotComesFromOfferedRow(rows, Offered, SlotOf, s);
    }
    forall row | row in rows && Offered(row)
      ensures SlotOf(row) in GoClient.SlotsOf(rows, Offered, SlotOf)
    {
      GoClient.OfferedRowYieldsSlot(rows, Offered, SlotOf, row);
    }
  }

  /** A row fit for both readers: one `th` without surrounding blanks, and no
      input that has a name and a value where either is empty. */
  predicate PlainRow(row: Row) {
    |row.headers| == 1 && IsTrimmed(row.headers[0])
    && forall i :: 0 <= i < |row.slotActionInputs| && Captures(GoRule, row.slotActionInputs[i])
         ==> Captures(PyRule, row.slotActionInputs[i])
  }

  /** Both readers treat a plain row alike. */
  lemma PlainRowReadAlike(row: Row)
    requires PlainRow(row)
    ensures Offered(row) == GoClient.Offered(row)
    ensures SlotOf(row) == GoClient.SlotOf(row)
  {
    RulesAgreeWithoutEmpties(row.slotActionInputs);
    TrimSpaceOfTrimmed(row.headers[0]);
    assert Concat(row.headers) == row.headers[0] + Concat([]);
  }

  /** On plain rows the Python port returns exactly the Go client's slots. */
  lemma {:induction false} PortAgreesWithGo(rows: seq<Row>)
    requires forall k :: 0 <= k < |rows| ==> PlainRow(rows[k])
    ensures GoClient.SlotsOf(rows, Offered, SlotOf) == GoClient.SlotsOf(rows, GoClient.Offered, GoClient.SlotOf)
  {
    if rows != [] {
      var n := |rows| - 1;
      var front := rows[..n];
      forall k | 0 <= k < n
        ensures PlainRow(front[k])
      {
        assert front[k] == rows[k];
      }
      PortAgreesWithGo(front);
      PlainRowReadAlike(rows[n]);
    }
  }

  /** `parse_booking_response`: success with an empty message iff the first
      banner text, stripped, is exactly the confirmation phrase. */
  function ParseBookingResponse(page: Page): (r: (bool, string))
    ensures r.0 <==> page.confirmations != [] && TrimSpace(page.confirmations[0]) == GoClient.ConfirmationPhrase
    ensures r.0 ==> r.1 == ""
    ensures !r.0 ==> r.1 == BookingFailedMessage
  {
    if page.confirmations != [] && TrimSpace(page.confirmations[0]) == GoClient.ConfirmationPhrase then (true, "")
    else (false, BookingFailedMessage)
  }
}
