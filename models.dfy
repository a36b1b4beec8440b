/** The values that flow between the booking website, the clients and the
    retry loop. HTML is not parsed here: a page arrives as the facts the
    clients' CSS selectors would find in it. */
module Models {
  import opened Wrappers

  /** One candidate tee time: `models.TimeSlot` in Go, `TimeSlot` in the Python API. */
  datatype TimeSlot = TimeSlot(time: string, canBook: bool, bookingForm: map<string, string>)

  /** Go's zero value `models.TimeSlot{}`. */
  const ZeroSlot := TimeSlot("", false, map[])

  /** One `<input>` element: its `name` and `value` attributes, when present. */
  datatype Input = Input(name: Option<string>, value: Option<string>)

  /** One availability row (`tr.canreserve` or `tr.cantreserve`), as the facts
      that the clients' selectors read from it. */
  datatype Row = Row(
    headers: seq<string>,           // text of each `th` cell
    inlineBooking: bool,            // an `a.inlineBooking` link is present
    playerName: bool,               // a `span.player-name` is present
    compItem: bool,                 // a `div.comp-item` is present
    bookedCell: bool,               // a `td.tbooked` cell is present
    blockedCell: bool,              // a `td.tblocked` cell is present
    slotActionInputs: seq<Input>,   // `td.slot-actions form input`, in document order
    formChildInputs: seq<Input>)    // `td form > input`, in document order

  /** A parsed page: the text of each `title` element, the availability rows,
      and the text of each element matched by the success-banner selector. */
  datatype Page = Page(titles: seq<string>, rows: seq<Row>, confirmations: seq<string>)

  /** An HTTP response: the status, the body (an error when it cannot be read
      or parsed), the URL reached after redirects, and the cookies it sets. */
  datatype Response = Response(status: int, body: Result<Page, string>, finalUrl: string, setCookies: map<string, string>)

  /** Go's `url.Values`: each key carries the list of values added for it. */
  type Values = map<string, seq<string>>

  /** `url.Values.Add`: append `v` to the values already held for `k`. */
  function AddValue(q: Values, k: string, v: string): (r: Values)
    ensures r.Keys == q.Keys + {k}
    ensures r[k] == (if k in q then q[k] else []) + [v]
    ensures forall j :: j in q && j != k ==> r[j] == q[j]
    ensures k !in q ==> r == q[k := [v]]
  {
    if k in q then q[k := q[k] + [v]] else q[k := [v]]
  }

  /** `url.Values.Set`: replace whatever `k` held by the single value `v`. */
  function SetValue(q: Values, k: string, v: string): (r: Values)
    ensures r.Keys == q.Keys + {k}
    ensures r[k] == [v]
    ensures forall j :: j in q && j != k ==> r[j] == q[j]
  {
    q[k := [v]]
  }

  datatype Method = Get | Post

  /** An outgoing request: verb, full URL without query, and form or query values. */
  datatype Request = Request(verb: Method, url: string, values: Values)
}
