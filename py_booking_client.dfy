/** The Python API's booking client (`app/services/booking_client.py`): a
    class that holds the normalised base URL and, once created, an HTTP
    session represented by its cookie jar. Each call creates the session if it
    is missing, validates its arguments, sends one request and reads the
    answer; a raised exception is an `Err` of `ClientError`. */
module PyBookingClient {
  import opened Wrappers
  import opened Models
  import opened Strings
  import BookingUrl
  import HtmlParser
  import GoClient

  /** `httpx` transport failures, `raise_for_status` failures, and `BookingError`. */
  datatype ClientError = TransportError(message: string) | HttpStatusError(status: int) | BookingError(message: string)

  const NotBookableMessage := "Time slot is not bookable"
  const NumSlotsMessage := "num_slots must be between 1 and 4"
  const SlotNumMessage := "slot_num must be between 2 and 4"
  const NoBookingIdMessage := "Could not extract booking ID from response"

  /** `resp.raise_for_status()` then `resp.text`: a failed request or a body
      that cannot be read is a transport error, any status outside 2xx raises. */
  function ReadPage(resp: Result<Response, string>): (r: Result<Page, ClientError>)
    ensures r.Ok? <==> resp.Ok? && 200 <= resp.value.status < 300 && resp.value.body.Ok?
    ensures r.Ok? ==> r.value == resp.value.body.value
    ensures resp.Ok? && !(200 <= resp.value.status < 300) ==> r == Err(HttpStatusError(resp.value.status))
  {
    match resp
    case Err(e) => Err(TransportError(e))
    case Ok(response) =>
      if !(200 <= response.status < 300) then Err(HttpStatusError(response.status))
      else
        match response.body
        case Err(e) => Err(TransportError(e))
        case Ok(page) => Ok(page)
  }

  function LoginRequest(baseUrl: string, username: string, pin: string): Request {
    Request(Post, baseUrl + "/" + GoClient.LoginPath,
      map["task" := ["login"], "topmenu" := ["1"], "memberid" := [username], "pin" := [pin],
          "cachemid" := ["1"], "Submit" := ["Login"]])
  }

  function AvailabilityRequest(baseUrl: string, date: string): Request {
    Request(Get, baseUrl + "/" + GoClient.AvailabilityPath, map["date" := [date]])
  }

  /** The Python client with a base URL given with one trailing slash or
      more sends its login and availability requests where the Go client
      configured with that site and a single slash sends them. */
  lemma RequestsMatchGo(site: string, extra: nat, username: string, pin: string, date: string)
    requires site == [] || site[|site| - 1] != '/'
    ensures var base := TrimRightChar(site + seq(extra + 1, _ => '/'), '/');
      && LoginRequest(base, username, pin) == GoClient.LoginRequest(site + "/", username, pin)
      && AvailabilityRequest(base, date) == GoClient.AvailabilityRequest(site + "/", date)
  {
    TrimSlashes(site, extra);
    GoClient.LoginFormFields(site + "/", username, pin);
  }

  /** Stripping trailing slashes gives back the site. */
  lemma {:induction false} TrimSlashes(site: string, extra: nat)
    requires site == [] || site[|site| - 1] != '/'
    ensures TrimRightChar(site + seq(extra + 1, _ => '/'), '/') == site
  {
    var s := site + seq(extra + 1, _ => '/');
    assert s[..|s| - 1] == site + seq(extra, _ => '/');
    if extra > 0 {
      TrimSlashes(site, extra - 1);
    } else {
      assert s[..|s| - 1] == site;
    }
  }

  /** The checks `book_time_slot` makes before anything else, in order. */
  function BookingCheck(slot: TimeSlot, numSlots: int): (r: Option<string>)
    ensures r.None? <==> slot.canBook && 1 <= numSlots <= 4
    ensures !slot.canBook ==> r == Some(NotBookableMessage)
    ensures slot.canBook && !(1 <= numSlots <= 4) ==> r == Some(NumSlotsMessage)
  {
    if !slot.canBook then Some(NotBookableMessage)
    else if !(1 <= numSlots <= 4) then Some(NumSlotsMessage)
    else None
  }

  /** `{**time_slot.booking_form, "numslots": str(num_slots)}`. */
  function BookingParams(form: map<string, string>, numSlots: int): Values {
    map k | k in form.Keys + {"numslots"} :: if k == "numslots" then [IntToString(numSlots)] else [form[k]]
  }

  /** The Python port sends the Go client's booking query: the form with
      `numslots` overridden by the party size. */
  lemma ParamsMatchGoQuery(form: map<string, string>, numSlots: nat)
    ensures BookingParams(form, numSlots) == GoClient.BookingValues(form, numSlots)
  {
    assert IntToString(numSlots) == NatToString(numSlots);
  }

  /** How a booking answer is read: success needs a 2xx page whose first
      banner is the confirmation phrase and a final URL carrying an id. */
  function BookingReply(resp: Result<Response, string>): (r: Result<string, ClientError>)
    ensures r.Ok? <==> (ReadPage(resp).Ok? && HtmlParser.ParseBookingResponse(ReadPage(resp).value).0
                        && BookingUrl.FindEditId(resp.value.finalUrl).Some?)
    ensures r.Ok? ==> r.value == BookingUrl.FindEditId(resp.value.finalUrl).value && r.value != ""
    ensures ReadPage(resp).Err? ==> r == Err(ReadPage(resp).error)
    ensures ReadPage(resp).Ok? && !HtmlParser.ParseBookingResponse(ReadPage(resp).value).0
      ==> r == Err(BookingError(HtmlParser.BookingFailedMessage))
    ensures (ReadPage(resp).Ok? && HtmlParser.ParseBookingResponse(ReadPage(resp).value).0
             && BookingUrl.FindEditId(resp.value.finalUrl).None?) ==> r == Err(BookingError(NoBookingIdMessage))
  {
    match ReadPage(resp)
    case Err(e) => Err(e)
    case Ok(page) =>
      var (success, message) := HtmlParser.ParseBookingResponse(page);
      if !success then Err(BookingError(message))
      else
        match BookingUrl.FindEditId(resp.value.finalUrl)
        case None => Err(BookingError(NoBookingIdMessage))
        case Some(id) => Ok(id)
  }

  function PartnerParams(bookingId: string, partnerId: string, slotNum: int): Values {
    map["edit" := [bookingId], "addpartner" := [partnerId], "partnerslot" := [IntToString(slotNum)]]
  }

  /** `add_partner` sends what the Go client's `AddPlayingPartner` sends. */
  lemma PartnerParamsMatchGo(site: string, bookingId: string, partnerId: string, slotNum: int)
    requires site == [] || site[|site| - 1] != '/'
    ensures Request(Get, TrimRightChar(site + "/", '/') + "/" + GoClient.BookPath, PartnerParams(bookingId, partnerId, slotNum))
      == GoClient.PartnerRequest(site + "/", bookingId, partnerId, slotNum)
  {
    SingleSlashBase(site);
    GoClient.PartnerFormFields(site + "/", bookingId, partnerId, slotNum);
  }

  /** A site with one trailing slash loses exactly that slash. */
  lemma SingleSlashBase(site: string)
    requires site == [] || site[|site| - 1] != '/'
    ensures TrimRightChar(site + "/", '/') == site
  {
    TrimSlashes(site, 0);
    assert seq(1, _ => '/') == "/";
  }

  /** `add_partner`'s answer: a failed request raises, otherwise whether the status is 200. */
  function PartnerReply(resp: Result<Response, string>): (r: Result<bool, ClientError>)
    ensures r.Err? <==> resp.Err?
    ensures r.Ok? ==> (r.value <==> resp.value.status == 200)
  {
    match resp
    case Err(e) => Err(TransportError(e))
    case Ok(response) => Ok(response.status == 200)
  }

  /** Cookies a response sets; a failed request sets none. */
  function CookiesSet(resp: Result<Response, string>): map<string, string> {
    if resp.Ok? then resp.value.setCookies else map[]
  }

  class BookingClient {
    var baseUrl: string
    /** The live HTTP session, shown as its cookie jar; `None` until first use and after `close`. */
    var session: Option<map<string, string>>
    var initialCookies: map<string, string>

    /** The cookies the next request will carry. */
    function Jar(): map<string, string>
      reads this
    {
      if session.Some? then session.value else initialCookies
    }

    /** Stores the base URL without trailing slashes; no session yet. */
    constructor(url: string, cookies: Option<map<string, string>>)
      ensures baseUrl == TrimRightChar(url, '/')
      ensures session == None
      ensures initialCookies == (if cookies.Some? then cookies.value else map[])
    {
      baseUrl := TrimRightChar(url, '/');
      session := None;
      initialCookies := if cookies.Some? then cookies.value else map[];
    }

    /** `_ensure_client`: creates the session from the initial cookies only when there is none. */
    method EnsureClient()
      modifies this
      ensures session == (if old(session).None? then Some(initialCookies) else old(session))
      ensures baseUrl == old(baseUrl) && initialCookies == old(initialCookies)
      ensures session == Some(old(Jar()))
    {
      if session.None? {
        session := Some(initialCookies);
      }
    }

    /** `close`: afterwards there is no session, whether or not there was one. */
    method Close()
      modifies this
      ensures session == None
      ensures baseUrl == old(baseUrl) && initialCookies == old(initialCookies)
    {
      if session.Some? {
        session := None;
      }
    }

    /** `get_cookies`: the session's cookies, or none without a session. */
    function GetCookies(): (r: map<string, string>)
      reads this
      ensures session.None? ==> r == map[]
      ensures session.Some? ==> r == session.value
    {
      if session.Some? then session.value else map[]
    }

    /** One request through the session; the cookies it sets join the jar. */
    method Send(req: Request, transport: GoClient.Transport) returns (resp: Result<Response, string>)
      requires session.Some?
      modifies this
      ensures resp == transport(req)
      ensures session == Some(old(session.value) + CookiesSet(resp))
      ensures baseUrl == old(baseUrl) && initialCookies == old(initialCookies)
    {
      resp := transport(req);
      session := Some(session.value + CookiesSet(resp));
    }

    /** `login`: a raised error, or whether the title check passed. */
    method Login(username: string, pin: string, transport: GoClient.Transport) returns (r: Result<bool, ClientError>)
      modifies this
      ensures var resp := transport(LoginRequest(old(baseUrl), username, pin));
        && session == Some(old(Jar()) + CookiesSet(resp))
        && (ReadPage(resp).Err? ==> r == Err(ReadPage(resp).error))
        && (ReadPage(resp).Ok? ==> r == Ok(HtmlParser.ParseLoginResponse(ReadPage(resp).value)))
      ensures baseUrl == old(baseUrl) && initialCookies == old(initialCookies)
    {
      EnsureClient();
      var resp := Send(LoginRequest(baseUrl, username, pin), transport);
      var page := ReadPage(resp);
      if page.Err? {
        return Err(page.error);
      }
      r := Ok(HtmlParser.ParseLoginResponse(page.value));
    }

    /** `get_availability`: a raised error, or the parsed slots. */
    method GetAvailability(date: string, transport: GoClient.Transport) returns (r: Result<seq<TimeSlot>, ClientError>)
      modifies this
      ensures var resp := transport(AvailabilityRequest(old(baseUrl), date));
        && session == Some(old(Jar()) + CookiesSet(resp))
        && (ReadPage(resp).Err? ==> r == Err(ReadPage(resp).error))
        && (ReadPage(resp).Ok? ==>
              r == Ok(GoClient.SlotsOf(ReadPage(resp).value.rows, HtmlParser.Offered, HtmlParser.SlotOf)))
      ensures baseUrl == old(baseUrl) && initialCookies == old(initialCookies)
    {
      EnsureClient();
      var resp := Send(AvailabilityRequest(baseUrl, date), transport);
      var page := ReadPage(resp);
      if page.Err? {
        return Err(page.error);
      }
      var slots := HtmlParser.ParseAvailability(page.value.rows);
      r := Ok(slots);
    }

    /** `book_time_slot`: the checks come first, then the dry-run shortcut,
        then one request whose answer gives the booking id. */
    method BookTimeSlot(slot: TimeSlot, numSlots: int, dryRun: bool, transport: GoClient.Transport)
      returns (r: Result<string, ClientError>, sent: Option<Request>)
      modifies this
      ensures BookingCheck(slot, numSlots).Some? ==>
        r == Err(BookingError(BookingCheck(slot, numSlots).value)) && sent == None && session == Some(old(Jar()))
      ensures BookingCheck(slot, numSlots).None? && dryRun ==>
        r == Ok(GoClient.DryRunBookingId) && sent == None && session == Some(old(Jar()))
      ensures BookingCheck(slot, numSlots).None? && !dryRun ==>
        && sent == Some(Request(Get, old(baseUrl) + "/" + GoClient.BookPath, BookingParams(slot.bookingForm, numSlots)))
        && r == BookingReply(transport(sent.value))
        && session == Some(old(Jar()) + CookiesSet(transport(sent.value)))
      ensures baseUrl == old(baseUrl) && initialCookies == old(initialCookies)
    {
      EnsureClient();
      var check := BookingCheck(slot, numSlots);
      if check.Some? {
        return Err(BookingError(check.value)), None;
      }
      if dryRun {
        return Ok(GoClient.DryRunBookingId), None;
      }
      var req := Request(Get, baseUrl + "/" + GoClient.BookPath, BookingParams(slot.bookingForm, numSlots));
      var resp := Send(req, transport);
      sent := Some(req);
      r := BookingReply(resp);
    }

    /** `add_partner`: the slot check first, then the dry-run shortcut, then one request. */
    method AddPartner(bookingId: string, partnerId: string, slotNum: int, dryRun: bool, transport: GoClient.Transport)
      returns (r: Result<bool, ClientError>, sent: Option<Request>)
      modifies this
      ensures !(2 <= slotNum <= 4) ==> r == Err(BookingError(SlotNumMessage)) && sent == None
      ensures 2 <= slotNum <= 4 && dryRun ==> r == Ok(true) && sent == None
      ensures 2 <= slotNum <= 4 && !dryRun ==>
        && sent == Some(Request(Get, old(baseUrl) + "/" + GoClient.BookPath, PartnerParams(bookingId, partnerId, slotNum)))
        && r == PartnerReply(transport(sent.value))
        && session == Some(old(Jar()) + CookiesSet(transport(sent.value)))
      ensures sent == None ==> session == Some(old(Jar()))
      ensures baseUrl == old(baseUrl) && initialCookies == old(initialCookies)
    {
      EnsureClient();
      if !(2 <= slotNum <= 4) {
        return Err(BookingError(SlotNumMessage)), None;
      }
      if dryRun {
        return Ok(true), None;
      }
      var req := Request(Get, baseUrl + "/" + GoClient.BookPath, PartnerParams(bookingId, partnerId, slotNum));
      var resp := Send(req, transport);
      sent := Some(req);
      r := PartnerReply(resp);
    }
  }
}
