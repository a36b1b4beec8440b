/** The Go booking client (`pkg/clients`): what it sends to the club's
    website and how it reads each answer. The website is a `Transport`, a
    function from the request sent to the response (or transport error) that
    comes back; cookies and HTML parsing stay outside. */
module GoClient {
  import opened Wrappers
  import opened Models
  import opened Strings
  import opened Forms
  import opened BookingUrl

  const LoginPath := "login.php"
  const AvailabilityPath := "memberbooking/"
  const BookPath := "memberbooking/"

  /** The text of the success banner after a booking request. */
  const ConfirmationPhrase := "Now please enter the names of your playing partners."

  /** The booking id returned, without any request, on a dry run. */
  const DryRunBookingId := "dryrun-booking-id"

  type Transport = Request -> Result<Response, string>

  function StatusError(code: int): string {
    "invalid status code returned " + IntToString(code)
  }

  // ---------------------------------------------------------------------------
  // Login

  /** The login form, built by six `Add` calls on an empty `url.Values`. */
  function LoginRequest(baseUrl: string, username: string, pin: string): Request {
    var form := AddValue(AddValue(AddValue(AddValue(AddValue(AddValue(map[],
      "task", "login"), "topmenu", "1"), "memberid", username), "pin", pin), "cachemid", "1"), "Submit", "Login");
    Request(Post, baseUrl + LoginPath, form)
  }

  /** The login form carries exactly these six fields, one value each. */
  lemma LoginFormFields(baseUrl: string, username: string, pin: string)
    ensures LoginRequest(baseUrl, username, pin).values
      == map["task" := ["login"], "topmenu" := ["1"], "memberid" := [username], "pin" := [pin],
             "cachemid" := ["1"], "Submit" := ["Login"]]
  {
    var q1 := AddValue(map[], "task", "login");
    var q2 := AddValue(q1, "topmenu", "1");
    assert q2 == map["task" := ["login"], "topmenu" := ["1"]];
    var q3 := AddValue(q2, "memberid", username);
    assert q3 == q2["memberid" := [username]];
    var q4 := AddValue(q3, "pin", pin);
    assert q4 == q3["pin" := [pin]];
    var q5 := AddValue(q4, "cachemid", "1");
    assert "cachemid" !in q4;
    var q6 := AddValue(q5, "Submit", "Login");
    assert "Submit" !in q5;
  }

  /** `Login`: whether the site accepted the credentials, and an error. A
      transport error is `(false, err)`; any non-200 status is a plain
      rejection without error; otherwise the credentials are accepted iff the
      page title starts with "Welcome". A body that cannot be parsed gives
      `(true, err)`. */
  function Login(baseUrl: string, username: string, pin: string, transport: Transport): (r: (bool, Option<string>))
    ensures var resp := transport(LoginRequest(baseUrl, username, pin));
      && (r.1.None? && r.0 <==>
            resp.Ok? && resp.value.status == 200 && resp.value.body.Ok?
            && HasPrefix(Concat(resp.value.body.value.titles), "Welcome"))
      && (r.1.Some? <==> resp.Err? || (resp.value.status == 200 && resp.value.body.Err?))
      && (resp.Err? ==> r == (false, Some(resp.error)))
      && (resp.Ok? && resp.value.status != 200 ==> r == (false, None))
      && (r.0 && r.1.Some? <==> resp.Ok? && resp.value.status == 200 && resp.value.body.Err?)
  {
    match transport(LoginRequest(baseUrl, username, pin))
    case Err(e) => (false, Some(e))
    case Ok(resp) =>
      if resp.status != 200 then (false, None)
      else
        match resp.body
        case Err(e) => (true, Some(e))
        case Ok(page) => (HasPrefix(Concat(page.titles), "Welcome"), None)
  }

  // ---------------------------------------------------------------------------
  // Reading a page

  /** The steps shared by the availability and booking calls: a transport
      error or an unreadable body passes its error through, and any status
      other than 200 is an "invalid status code" error. */
  function FetchPage(resp: Result<Response, string>): (r: Result<Page, string>)
    ensures r.Ok? <==> resp.Ok? && resp.value.status == 200 && resp.value.body.Ok?
    ensures r.Ok? ==> r.value == resp.value.body.value
    ensures resp.Err? ==> r == Err(resp.error)
    ensures resp.Ok? && resp.value.status != 200 ==> r == Err(StatusError(resp.value.status))
  {
    match resp
    case Err(e) => Err(e)
    case Ok(response) =>
      if response.status != 200 then Err(StatusError(response.status))
      else response.body
  }

  // ---------------------------------------------------------------------------
  // Availability

  function AvailabilityRequest(baseUrl: string, date: string): Request {
    Request(Get, baseUrl + AvailabilityPath, AddValue(map[], "date", date))
  }

  /** The row rule: a booking button, no player name and no competition block. */
  predicate Offered(row: Row) {
    row.inlineBooking && !row.playerName && !row.compItem
  }

  /** The slot a row yields: all `th` text, the button flag, the captured form. */
  function SlotOf(row: Row): TimeSlot {
    TimeSlot(Concat(row.headers), row.inlineBooking, FormOf(row.slotActionInputs, GoRule))
  }

  /** The slots yielded by `rows`, in row order, under a row rule and a slot reading. */
  function SlotsOf(rows: seq<Row>, offered: Row -> bool, slotOf: Row -> TimeSlot): seq<TimeSlot> {
    if rows == [] then []
    else
      var last := rows[|rows| - 1];
      SlotsOf(rows[..|rows| - 1], offered, slotOf) + (if offered(last) then [slotOf(last)] else [])
  }

  /** Every offered row yields its slot. */
  lemma {:induction false} OfferedRowYieldsSlot(rows: seq<Row>, offered: Row -> bool, slotOf: Row -> TimeSlot, row: Row)
    requires row in rows && offered(row)
    ensures slotOf(row) in SlotsOf(rows, offered, slotOf)
  {
    var front := rows[..|rows| - 1];
    if row != rows[|rows| - 1] {
      assert row in front by {
        var i :| 0 <= i < |rows| && rows[i] == row;
        assert front[i] == row;
      }
      OfferedRowYieldsSlot(front, offered, slotOf, row);
    }
  }

  /** Every slot comes from an offered row. */
  lemma {:induction false} SlotComesFromOfferedRow(rows: seq<Row>, offered: Row -> bool, slotOf: Row -> TimeSlot, slot: TimeSlot)
    requires slot in SlotsOf(rows, offered, slotOf)
    ensures exists row :: row in rows && offered(row) && slot == slotOf(row)
  {
    var front := rows[..|rows| - 1];
    var last := rows[|rows| - 1];
    if slot in SlotsOf(front, offered, slotOf) {
      SlotComesFromOfferedRow(front, offered, slotOf, slot);
      var row :| row in front && offered(row) && slot == slotOf(row);
      assert row in rows by {
        var i :| 0 <= i < |front| && front[i] == row;
        assert rows[i] == row;
      }
    } else {
      assert offered(last) && slot == slotOf(last);
    }
  }

  /** Row order is kept: the slots of two stretches of rows are the slots of
      the first followed by those of the second. */
  lemma {:induction false} SlotsOfAppend(a: seq<Row>, b: seq<Row>, offered: Row -> bool, slotOf: Row -> TimeSlot)
    ensures SlotsOf(a + b, offered, slotOf) == SlotsOf(a, offered, slotOf) + SlotsOf(b, offered, slotOf)
  {
    if b == [] {
      assert a + b == a;
    } else {
      var n := |b| - 1;
      assert (a + b)[..|a + b| - 1] == a + b[..n];
      SlotsOfAppend(a, b[..n], offered, slotOf);
    }
  }

  /** Every slot the client yields is bookable, and a row yields a slot
      exactly when it has a button, no player and no competition block. */
  lemma AvailabilityRowRule(rows: seq<Row>)
    ensures forall s :: s in SlotsOf(rows, Offered, SlotOf) ==> s.canBook
    ensures forall row :: row in rows && Offered(row) ==> SlotOf(row) in SlotsOf(rows, Offered, SlotOf)
  {
    forall s | s in SlotsOf(rows, Offered, SlotOf)
      ensures s.canBook
    {
      SlotComesFromOfferedRow(rows, Offered, SlotOf, s);
    }
    forall row | row in rows && Offered(row)
      ensures SlotOf(row) in SlotsOf(rows, Offered, SlotOf)
    {
      OfferedRowYieldsSlot(rows, Offered, SlotOf, row);
    }
  }

  /** The `Each` callback over the rows, with the form capture inside it. */
  method ScanRows(rows: seq<Row>) returns (slots: seq<TimeSlot>)
    ensures slots == SlotsOf(rows, Offered, SlotOf)
  {
    slots := [];
    var i := 0;
    while i < |rows|
      invariant 0 <= i <= |rows|
      invariant slots == SlotsOf(rows[..i], Offered, SlotOf)
    {
      var row := rows[i];
      var form := CaptureForm(row.slotActionInputs, GoRule);
      var bookingButton := row.inlineBooking;
      if !row.playerName && !row.compItem && bookingButton {
        slots := slots + [TimeSlot(Concat(row.headers), bookingButton, form)];
      }
      assert rows[..i + 1][..i] == rows[..i];
      i := i + 1;
    }
    assert rows[..i] == rows;
  }

  /** `GetCourseAvailability`: the offered slots of the page, or the error
      with an empty list. */
  method GetCourseAvailability(baseUrl: string, date: string, transport: Transport)
    returns (slots: seq<TimeSlot>, err: Option<string>)
    ensures match FetchPage(transport(AvailabilityRequest(baseUrl, date)))
      case Err(e) => slots == [] && err == Some(e)
      case Ok(page) => err == None && slots == SlotsOf(page.rows, Offered, SlotOf)
  {
    var page := FetchPage(transport(AvailabilityRequest(baseUrl, date)));
    if page.Err? {
      return [], Some(page.error);
    }
    slots := ScanRows(page.value.rows);
    err := None;
  }

  // ---------------------------------------------------------------------------
  // Booking

  /** The booking query: every form field once, and `numslots` set to the
      party size whatever the form said. */
  function BookingValues(form: map<string, string>, numSlots: nat): Values {
    map k | k in form.Keys + {"numslots"} :: if k == "numslots" then [NatToString(numSlots)] else [form[k]]
  }

  /** The query holds the form's own fields and `numslots`, each with one
      value, and a form-supplied `numslots` is overridden. */
  lemma BookingValuesShape(form: map<string, string>, numSlots: nat)
    ensures BookingValues(form, numSlots).Keys == form.Keys + {"numslots"}
    ensures BookingValues(form, numSlots)["numslots"] == [NatToString(numSlots)]
    ensures forall k :: k in form && k != "numslots" ==> BookingValues(form, numSlots)[k] == [form[k]]
  {
  }

  /** The `Add` loop over the form followed by `Set("numslots", …)`. */
  method BuildBookingQuery(form: map<string, string>, numSlots: nat) returns (q: Values)
    ensures q == BookingValues(form, numSlots)
  {
    q := map[];
    var rest := form.Keys;
    while rest != {}
      invariant rest <= form.Keys
      invariant q == map k | k in form.Keys - rest :: [form[k]]
      decreases rest
    {
      var k :| k in rest;
      assert k !in q;
      q := AddValue(q, k, form[k]);
      rest := rest - {k};
      assert q == map j | j in form.Keys - rest :: [form[j]];
    }
    q := SetValue(q, "numslots", NatToString(numSlots));
  }

  function BookingRequest(baseUrl: string, query: Values): Request {
    Request(Get, baseUrl + BookPath, query)
  }

  /** `extractBookingID`. */
  function ExtractBookingId(url: string): (r: Result<string, string>)
    ensures r.Err? <==> forall i :: 0 <= i < |url| ==> !EditAt(url, i)
    ensures r.Ok? ==> r.value != "" && exists i :: LeftmostEditAt(url, i) && RunAt(url, i + 6, r.value)
    ensures r.Err? ==> r.error == "booking ID not found in URL: " + url
  {
    match FindEditId(url)
    case None => Err("booking ID not found in URL: " + url)
    case Some(id) => Ok(id)
  }

  /** How a booking response is read. Success needs a 200 page whose banner
      is exactly the confirmation phrase and a final URL carrying an `edit`
      id; a successful booking therefore never has an empty id, and every
      failure returns the empty id. */
  function BookingOutcome(resp: Result<Response, string>): (r: (string, Option<string>))
    ensures r.1.None? <==>
      FetchPage(resp).Ok? && Concat(FetchPage(resp).value.confirmations) == ConfirmationPhrase
      && FindEditId(resp.value.finalUrl).Some?
    ensures r.1.None? ==> r.0 == FindEditId(resp.value.finalUrl).value && r.0 != ""
    ensures r.1.Some? ==> r.0 == ""
    ensures FetchPage(resp).Err? ==> r.1 == Some(FetchPage(resp).error)
    ensures FetchPage(resp).Ok? && Concat(FetchPage(resp).value.confirmations) != ConfirmationPhrase
      ==> r.1 == Some("booking failed: unexpected confirmation message: " + Concat(FetchPage(resp).value.confirmations))
  {
    match FetchPage(resp)
    case Err(e) => ("", Some(e))
    case Ok(page) =>
      var confirmation := Concat(page.confirmations);
      if confirmation != ConfirmationPhrase then
        ("", Some("booking failed: unexpected confirmation message: " + confirmation))
      else
        match ExtractBookingId(resp.value.finalUrl)
        case Err(e) => ("", Some("failed to extract booking ID: " + e))
        case Ok(id) => (id, None)
  }

  /** `BookTimeSlot`: the booking id and error, and the request sent. A dry
      run sends nothing and answers with the sentinel id; otherwise the query
      is the slot's form with `numslots` = partners + 1. */
  method BookTimeSlot(baseUrl: string, slot: TimeSlot, partners: seq<string>, dryRun: bool, transport: Transport)
    returns (id: string, err: Option<string>, sent: Option<Request>)
    ensures sent.None? <==> dryRun
    ensures dryRun ==> id == DryRunBookingId && err == None
    ensures !dryRun ==> sent == Some(BookingRequest(baseUrl, BookingValues(slot.bookingForm, |partners| + 1)))
    ensures !dryRun ==> (id, err) == BookingOutcome(transport(sent.value))
  {
    var numSlots := |partners| + 1;
    var q := BuildBookingQuery(slot.bookingForm, numSlots);
    var req := BookingRequest(baseUrl, q);
    if dryRun {
      return DryRunBookingId, None, None;
    }
    sent := Some(req);
    id, err := BookingOutcome(transport(req)).0, BookingOutcome(transport(req)).1;
  }

  // ---------------------------------------------------------------------------
  // Partners

  function PartnerRequest(baseUrl: string, bookingId: string, partnerId: string, slotNumber: int): Request {
    Request(Get, baseUrl + BookPath,
      AddValue(AddValue(AddValue(map[], "edit", bookingId), "addpartner", partnerId), "partnerslot", IntToString(slotNumber)))
  }

  /** The partner request names the booking, the partner and the slot, once each. */
  lemma PartnerFormFields(baseUrl: string, bookingId: string, partnerId: string, slotNumber: int)
    ensures PartnerRequest(baseUrl, bookingId, partnerId, slotNumber).values
      == map["edit" := [bookingId], "addpartner" := [partnerId], "partnerslot" := [IntToString(slotNumber)]]
  {
    var q1 := AddValue(map[], "edit", bookingId);
    var q2 := AddValue(q1, "addpartner", partnerId);
    assert q2 == map["edit" := [bookingId], "addpartner" := [partnerId]];
    assert "partnerslot" !in q2;
  }

  /** `AddPlayingPartner`: the error and the request sent. A dry run sends
      nothing and succeeds; otherwise the request names the booking, the
      partner and the slot number, and it fails iff the transport fails or
      the status is not 200. */
  function AddPlayingPartner(baseUrl: string, bookingId: string, partnerId: string, slotNumber: int,
                             dryRun: bool, transport: Transport): (r: (Option<string>, Option<Request>))
    ensures r.1.None? <==> dryRun
    ensures dryRun ==> r.0.None?
    ensures r.1.Some? ==> r.1.value.verb == Get && r.1.value.url == baseUrl + BookPath
    ensures r.1.Some? ==>
      r.1.value.values == map["edit" := [bookingId], "addpartner" := [partnerId], "partnerslot" := [IntToString(slotNumber)]]
    ensures r.1.Some? ==> (r.0.Some? <==> transport(r.1.value).Err? || transport(r.1.value).value.status != 200)
    ensures r.1.Some? && transport(r.1.value).Ok? && transport(r.1.value).value.status != 200
      ==> r.0 == Some("failed to add partner: status code " + IntToString(transport(r.1.value).value.status))
  {
    var req := PartnerRequest(baseUrl, bookingId, partnerId, slotNumber);
    if dryRun then (None, None)
    else
      match transport(req)
      case Err(e) => (Some(e), Some(req))
      case Ok(resp) =>
        if resp.status != 200 then (Some("failed to add partner: status code " + IntToString(resp.status)), Some(req))
        else (None, Some(req))
  }
}
