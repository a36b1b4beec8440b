/** The legacy Go web client (`pkg/client`). Its login and its request
    plumbing are those of `GoClient`; it differs in the row rule, in which
    inputs make up the form, in how the booking query treats `numslots`, and
    in answering a booking with a yes/no instead of a booking id. */
module LegacyClient {
  import opened Wrappers
  import opened Models
  import opened Strings
  import opened Forms
  import GoClient

  /** The legacy row rule. The source's `peopleBooked` flag is true when the
      row has NO `td.tbooked` cell, so a row qualifies when it has no booked
      cell, no blocked cell and a booking button. */
  predicate Offered(row: Row) {
    !row.bookedCell && !row.blockedCell && row.inlineBooking
  }

  /** The slot a row yields; the form comes from the direct `input` children of `td form`. */
  function SlotOf(row: Row): TimeSlot {
    TimeSlot(Concat(row.headers), row.inlineBooking, FormOf(row.formChildInputs, GoRule))
  }

  method ScanRows(rows: seq<Row>) returns (slots: seq<TimeSlot>)
    ensures slots == GoClient.SlotsOf(rows, Offered, SlotOf)
  {
    slots := [];
    var i := 0;
    while i < |rows|
      invariant 0 <= i <= |rows|
      invariant slots == GoClient.SlotsOf(rows[..i], Offered, SlotOf)
    {
      var row := rows[i];
      var bookingButton := row.inlineBooking;
      var peopleBooked := !row.bookedCell;
      var blocked := row.blockedCell;
      var form := CaptureForm(row.formChildInputs, GoRule);
      if peopleBooked && !blocked && bookingButton {
        slots := slots + [TimeSlot(Concat(row.headers), bookingButton, form)];
      }
      assert rows[..i + 1][..i] == rows[..i];
      i := i + 1;
    }
    assert rows[..i] == rows;
  }

  /** `GetCourseAvailability`: the qualifying slots, or the error with an empty list. */
  method GetCourseAvailability(baseUrl: string, date: string, transport: GoClient.Transport)
    returns (slots: seq<TimeSlot>, err: Option<string>)
    ensures match GoClient.FetchPage(transport(GoClient.AvailabilityRequest(baseUrl, date)))
      case Err(e) => slots == [] && err == Some(e)
      case Ok(page) => err == None && slots == GoClient.SlotsOf(page.rows, Offered, SlotOf)
  {
    var page := GoClient.FetchPage(transport(GoClient.AvailabilityRequest(baseUrl, date)));
    if page.Err? {
      return [], Some(page.error);
    }
    slots := ScanRows(page.value.rows);
    err := None;
  }

  /** Every slot yielded is bookable, and every qualifying row yields its slot. */
  lemma AvailabilityRowRule(rows: seq<Row>)
    ensures forall s :: s in GoClient.SlotsOf(rows, Offered, SlotOf) ==> s.canBook
    ensures forall row :: row in rows && Offered(row) ==> SlotOf(row) in GoClient.SlotsOf(rows, Offered, SlotOf)
  {
    forall s | s in GoClient.SlotsOf(rows, Offered, SlotOf)
      ensures s.canBook
    {
      GoClient.SlotComesFromOfferedRow(rows, Offered, SlotOf, s);
    }
    forall row | row in rows && Offered(row)
      ensures SlotOf(row) in GoClient.SlotsOf(rows, Offered, SlotOf)
    {
      GoClient.OfferedRowYieldsSlot(rows, Offered, SlotOf, row);
    }
  }

  /** The two clients read rows differently: a row showing a player's name
      but no booked cell is offered by the legacy client only. */
  lemma RowRulesDiffer()
    ensures var row := Row(["09:00"], true, true, false, false, false, [], []);
      Offered(row) && !GoClient.Offered(row)
  {
  }

  /** The query after `numslots=4` and the form fields in `added` have been
      added: a form field named `numslots` lands after the 4. */
  function QueryAfter(form: map<string, string>, added: set<string>): Values
    requires added <= form.Keys
  {
    map k | k in added + {"numslots"} ::
      if k == "numslots" then ["4"] + (if "numslots" in added then [form["numslots"]] else []) else [form[k]]
  }

  /** The legacy booking query: `numslots=4` first, then every form field
      added after it, so a form field named `numslots` becomes a second value. */
  function BookingValues(form: map<string, string>): Values {
    QueryAfter(form, form.Keys)
  }

  /** Before the loop only the fixed `numslots` is present. */
  lemma QueryAfterNothing(form: map<string, string>)
    ensures QueryAfter(form, {}) == AddValue(map[], "numslots", "4")
  {
    assert ["4"] + [] == ["4"];
  }

  /** One more `Add` of a form field. */
  lemma QueryAfterStep(form: map<string, string>, added: set<string>, k: string)
    requires added <= form.Keys && k in form && k !in added
    ensures AddValue(QueryAfter(form, added), k, form[k]) == QueryAfter(form, added + {k})
  {
    var before := QueryAfter(form, added);
    var after := QueryAfter(form, added + {k});
    var stepped := AddValue(before, k, form[k]);
    assert stepped.Keys == after.Keys;
    forall j | j in after
      ensures stepped[j] == after[j]
    {
      if j == k && j == "numslots" {
        assert before[j] == ["4"];
      }
    }
  }

  /** `q.Add("numslots", "4")` followed by the `Add` loop over the form. */
  method BuildBookingQuery(form: map<string, string>) returns (q: Values)
    ensures q == BookingValues(form)
  {
    q := AddValue(map[], "numslots", "4");
    var rest := form.Keys;
    QueryAfterNothing(form);
    while rest != {}
      invariant rest <= form.Keys
      invariant q == QueryAfter(form, form.Keys - rest)
      decreases rest
    {
      var k :| k in rest;
      QueryAfterStep(form, form.Keys - rest, k);
      q := AddValue(q, k, form[k]);
      assert form.Keys - rest + {k} == form.Keys - (rest - {k});
      rest := rest - {k};
    }
  }

  /** A party size sent in the form is appended after the fixed 4 here,
      whereas the current client replaces it. */
  lemma NumslotsAppendedNotOverridden(form: map<string, string>, numSlots: nat)
    requires "numslots" in form
    ensures BookingValues(form)["numslots"] == ["4", form["numslots"]]
    ensures GoClient.BookingValues(form, numSlots)["numslots"] == [NatToString(numSlots)]
  {
  }

  /** `BookTimeSlot`: booked iff the page arrives and its banner is exactly
      the confirmation phrase; an error only when the page does not arrive. */
  method BookTimeSlot(baseUrl: string, slot: TimeSlot, transport: GoClient.Transport)
    returns (booked: bool, err: Option<string>, sent: Request)
    ensures sent == GoClient.BookingRequest(baseUrl, BookingValues(slot.bookingForm))
    ensures var page := GoClient.FetchPage(transport(sent));
      && (booked <==> page.Ok? && Concat(page.value.confirmations) == GoClient.ConfirmationPhrase)
      && (err.Some? <==> page.Err?)
      && (page.Err? ==> err == Some(page.error))
  {
    var q := BuildBookingQuery(slot.bookingForm);
    sent := GoClient.BookingRequest(baseUrl, q);
    var page := GoClient.FetchPage(transport(sent));
    if page.Err? {
      return false, Some(page.error), sent;
    }
    booked := Concat(page.value.confirmations) == GoClient.ConfirmationPhrase;
    err := None;
  }
}
