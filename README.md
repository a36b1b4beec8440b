# tee-sniper in Dafny

tee-sniper books golf tee times on a club's member booking website. It has two parts:

- **The Go command line tool** logs in, then retries up to a configured number of times:
  - it fetches the tee sheet for a date;
  - it keeps the slots that can be booked and lie strictly inside a time window;
  - it picks one at random and books it for the member and their playing partners;
  - it adds the partners and reports the result by SMS.
- **The Python API** does the same client work for a web front end. It also keeps login sessions in Redis and encrypts the stored credentials.

This project models the decision logic of both parts and proves properties of it.

| Dafny module | File | What it models |
|---|---|---|
| `TeeTimes` | `teetimes.dfy` | Slot selector: an in-place sort, two filters, a random pick |
| `Orchestrator` | `orchestrator.dfy` | `App.Run`: the retry loop as a method that records each call and each sleep in a trace |
| `GoClient` | `go_client.dfy` | Current Go booking client: login, the row rule, the booking query, the confirmation check, the partner request |
| `LegacyClient` | `legacy_client.dfy` | Legacy Go web client: different row rule, form inputs, query and answer |
| `Forms` | `forms.dfy` | How each client turns a row's `<input>` elements into a booking form |
| `BookingUrl` | `booking_url.dfy` | The `[?&]edit=([^&]+)` booking-id extractor shared by Go and Python |
| `HtmlParser` | `html_parser.dfy` | The Python HTML readers |
| `PyBookingClient` | `py_booking_client.dfy` | The Python booking client class and its HTTP session lifecycle |
| `SessionStore` | `session_store.dfy` | The Python session manager over a Redis table with TTLs |
| `Encryption` | `encryption.dfy` | The credential framing `username:pin`, with a nonce prefix, over an abstract cipher |
| `PartnerConfig` | `partner_config.dfy` | Splitting the playing-partner setting |
| `Logger` | `logger.dfy` | Parsing the log level |
| `Models`, `Strings`, `Seqs`, `Wrappers` | | Shared values, Go string operations, filters, `Option`/`Result` |

## How the model is built

**Web pages.** A web page arrives already parsed into a `Page`:

- the text of each `title` element;
- the availability rows;
- the text of each success banner.

Each `Row` records the facts that any client's CSS selectors read from it: the `th` texts, which marker elements are present, and the two lists of `<input>` elements.

**HTTP.** An HTTP exchange is a `Transport` function from the request to either a response or a transport error. A response holds the status, the parsed body, the final URL and the cookies it sets. Each client operation states what it sends and what it makes of every possible answer.

**The retry loop.** `App.Run` calls the booking and SMS services. These are scripted oracles: the k-th call of each kind gets the k-th scripted answer. `rand.Intn` is an input stream of numbers. The loop's contract classifies every run into one of four shapes:

- **login failed:** the trace holds only the login.
- **aborted:** the rounds end with a failed fetch, and no SMS was sent.
- **booked:** the rounds end with exactly one successful booking. Then partner k is added to slot k + 2, and one success SMS is sent.
- **exhausted:** exactly `Retries` fetches happened, and one failure SMS was sent.

Lemmas about traces then prove ordering and counting facts:

- at most one success;
- the sleep band for each kind of outcome;
- every booked slot is a bookable candidate from the fetch just before it.

**Code over names and comments.** Where the source's own names or comments say one thing and the code does another, the model follows the code:

- In the legacy client, the flag named `peopleBooked` is true when the row has *no* `td.tbooked` cell (pkg/client/client.go:110). So the legacy client offers a row only when the row has no booked cell. `LegacyClient.Offered` encodes the code as written.
- The Python form capture carries the comment "Go checks nok && vok", but its test `if name and value` also drops inputs whose name or value is empty (api/app/utils/html_parser.py:53). Go keeps empty values. The two rules are modelled separately, and the difference is proved (`Forms.EmptyValueDiverges`).

## Model

| member | source | states |
|---|---|---|
| TeeTimes.SortTimesAscending | pkg/teetimes/teetimes.go:13-19 | Reorders the array in place so that labels never decrease in Go string order, and the result is a permutation (same multiset) of the input; no stability is claimed |
| TeeTimes.SortedPermutationsShareLabels | pkg/teetimes/teetimes.go:14-16 | Two sorted permutations of the same slots have the same label sequence, so sorting an already sorted list keeps its labels |
| Strings.LessTransitive | pkg/teetimes/teetimes.go:15 | The string order used by the sort is transitive |
| Strings.LessTotal | pkg/teetimes/teetimes.go:15 | Of two distinct labels one is smaller, so the sort order is total |
| Strings.LessAsymmetric | pkg/teetimes/teetimes.go:15 | No two labels are each smaller than the other |
| TeeTimes.FilterByBookable | pkg/teetimes/teetimes.go:21-28 | The loop's result is exactly the slots with `canBook`, in input order, and membership is an iff |
| TeeTimes.BookableIdempotent | pkg/teetimes/teetimes.go:21-28 | Filtering twice gives the same list as filtering once |
| TeeTimes.BookableKeepsOrder | pkg/teetimes/teetimes.go:21-28 | The filter distributes over concatenation, so relative order is kept |
| TeeTimes.FilterBetweenTimes | pkg/teetimes/teetimes.go:30-37 | The loop keeps exactly the slots with `start < time < end`, both bounds exclusive, in input order |
| TeeTimes.EmptyWindow | pkg/teetimes/teetimes.go:32 | When `start >= end` no slot is kept |
| TeeTimes.BetweenIdempotent | pkg/teetimes/teetimes.go:30-37 | The window filter is idempotent |
| TeeTimes.BetweenKeepsOrder | pkg/teetimes/teetimes.go:30-37 | The window filter distributes over concatenation |
| TeeTimes.PickRandomTime | pkg/teetimes/teetimes.go:39-45 | An empty list gives the zero slot and `ErrNoTimeSlotsAvailable`; a non-empty list gives, with no error, an element of the list |
| TeeTimes.PickCanReachEverySlot | pkg/teetimes/teetimes.go:43-44 | Every index below the length is picked for some draw |
| TeeTimes.PickFromSingleton | pkg/teetimes/teetimes.go:43-44 | A one-slot list always yields that slot |
| Orchestrator.Run | cmd/tee-sniper/main.go:53-144 | Login first. A login error gives "login failed" after the login alone. The calls replay the scripts and there are at most `Retries` fetches. An availability error gives an aborted run with no SMS. `nil` means a booked run. `ErrNoBooking` carries "Failed to book tee time on <date>" and means an exhausted run with one failure SMS |
| Orchestrator.ErrorText | cmd/tee-sniper/main.go:134-141 | The no-booking error text starts with `ErrNoBooking` followed by ": " |
| Orchestrator.RetryBaseSeconds | cmd/tee-sniper/main.go:20-22 | The whole-second base delay lies in `[min, max]` |
| Orchestrator.RetryBandReachable | cmd/tee-sniper/main.go:22 | Every second of the band is the delay of some draw |
| Orchestrator.RetryLoop | cmd/tee-sniper/main.go:65-132 | The loop runs at most `Retries` rounds, each replaying the next scripted fetch. It stops early on a fetch error, giving an aborted run, or on a successful booking, giving a booked run. Otherwise it gives up with the rounds settled after exactly `max(Retries, 0)` fetches |
| Orchestrator.RunRound | cmd/tee-sniper/main.go:67-132 | One pass of the loop either extends the rounds and keeps the scripts in step, aborts on exactly the scripted fetch error, or ends in a booked run |
| Orchestrator.TryBooking | cmd/tee-sniper/main.go:87-131 | Picking and booking from a non-empty candidate list never aborts. It either sleeps in the band the outcome calls for, or completes a booked run |
| Orchestrator.Narrow | cmd/tee-sniper/main.go:73-75 | The list after filter, sort and filter holds exactly the bookable slots inside the window |
| Orchestrator.AddPartners | cmd/tee-sniper/main.go:108-116 | The trace grows by exactly one call per partner, in list order: partner k goes to slot k + 2 with the booking id and dry-run flag, whatever earlier calls answered. No fetch, booking or SMS is added |
| Orchestrator.Celebrate | cmd/tee-sniper/main.go:105-125 | After a successful booking come the partner calls, then exactly one success SMS naming the time, the date and the party size |
| Orchestrator.Concede | cmd/tee-sniper/main.go:134-141 | When every round failed, exactly one failure SMS is sent |
| Orchestrator.RoundsSendNoSms | cmd/tee-sniper/main.go:67-132 | No SMS is sent inside the retry rounds |
| Orchestrator.SuccessEndsRounds | cmd/tee-sniper/main.go:124-125 | A successful booking is the last event of the rounds: the loop exits |
| Orchestrator.OnlyLastMaySucceed | cmd/tee-sniper/main.go:124-125 | No event before the last one in the rounds is a successful booking |
| Orchestrator.RoundsLead | cmd/tee-sniper/main.go:77-131 | Between rounds, each outcome is followed by what the code does next: no candidate gives a (5,15) sleep, candidates give a booking, a booking error gives a (3,8) sleep, an empty id gives a (4,10) sleep, and a sleep gives the next fetch |
| Orchestrator.SleepsMatchOutcomes | cmd/tee-sniper/main.go:77-131 | Each sleep lies in its band, and each band is an iff for its outcome: (5,15) for no candidate, (3,8) for a booking error, (4,10) for an empty booking id |
| Orchestrator.BookedSlotIsCandidate | cmd/tee-sniper/main.go:73-96 | Every slot sent to booking came from the list fetched just before, can be booked, and lies strictly between the start and end times |
| Orchestrator.AbortKeepsBudget | cmd/tee-sniper/main.go:68-71 | A failed fetch ends the run within budget, with no retry and no SMS |
| Orchestrator.BookedRunSucceedsOnce | cmd/tee-sniper/main.go:105-125 | A booked run holds exactly one successful booking |
| Orchestrator.BookedRunBody | cmd/tee-sniper/main.go:67-125 | Before the booking index no event is a successful booking |
| Orchestrator.BookedRunTail | cmd/tee-sniper/main.go:105-125 | After the successful booking come only partner additions and the SMS |
| Orchestrator.ExhaustedRunNeverSucceeds | cmd/tee-sniper/main.go:134-141 | A run that spent its budget holds no successful booking |
| PartnerConfig.GetPlayingPartnersList | pkg/config/config.go:46-55 | The split pieces are trimmed in place; the result is empty for the empty setting and the trimmed pieces otherwise |
| PartnerConfig.PartnersCount | pkg/config/config.go:50-54 | A non-empty setting gives one entry more than it has commas |
| PartnerConfig.PartnersArePieces | pkg/config/config.go:50-54 | Entry k is comma-separated piece k trimmed, holds no comma, and the pieces rejoin to the setting, so order is kept |
| PartnerConfig.BlankPieceKept | pkg/config/config.go:50-54 | A piece of blanks is kept as an empty entry, not dropped |
| PartnerConfig.PartnersRoundTrip | pkg/config/config.go:46-55 | Trimmed comma-free ids joined by commas read back as the same ids |
| Strings.SplitCount | pkg/config/config.go:50 | Splitting gives one piece more than there are separators |
| Strings.JoinSplit | pkg/config/config.go:50 | Joining the pieces with the separator gives the string back |
| Strings.SplitJoin | pkg/config/config.go:50 | Splitting separator-free pieces joined by the separator gives the pieces back |
| Strings.TrimSpaceOfTrimmed | pkg/config/config.go:52 | Trimming a string without surrounding white space leaves it unchanged |
| Logger.ParseLogLevel | pkg/logger/logger.go:28-39 | Debug iff the lower-cased name is "debug"; Warn iff "warn" or "warning"; Error iff "error"; Info for every other name |
| Logger.ParseIgnoresCase | pkg/logger/logger.go:29 | Names equal up to letter case select the same level |
| Logger.ParseUpperCase | pkg/logger/logger.go:29-37 | Examples: "DEBUG", "Warning", "ERROR" and "INFO" select their levels (the general fact is `Logger.ParseIgnoresCase`) |
| Logger.LevelNameRoundTrip | pkg/logger/logger.go:30-35 | Each level's name parses back to that level |
| Logger.UnknownIsInfo | pkg/logger/logger.go:36-37 | Examples: the empty name and "verbose" give info (the general fact is the fourth ensures of `Logger.ParseLogLevel`) |
| Strings.ToLowerIdempotent | pkg/logger/logger.go:29 | Lower-casing twice is lower-casing once |
| GoClient.LoginFormFields | pkg/clients/bookingclient.go:45-51 | The login form has exactly task=login, topmenu=1, memberid, pin, cachemid=1 and Submit=Login, one value each |
| GoClient.Login | pkg/clients/bookingclient.go:44-80 | A transport error gives (false, err). A non-200 status gives (false, nil). An unparsable 200 body gives (true, err). Otherwise the result is (title starts with "Welcome", nil). The legacy web client's login (pkg/client/client.go:41-77) is the same code and uses this member |
| GoClient.FetchPage | pkg/clients/bookingclient.go:95-109 | A page is read iff the request succeeds with status 200 and the body parses. A non-200 status gives "invalid status code returned <code>" |
| GoClient.GetCourseAvailability | pkg/clients/bookingclient.go:82-136 | A failed fetch gives an empty list and the error; otherwise the slots of the offered rows, in row order |
| GoClient.ScanRows | pkg/clients/bookingclient.go:111-133 | The row callback's loop yields exactly the slots of the row-rule list |
| GoClient.AvailabilityRowRule | pkg/clients/bookingclient.go:111-133 | Every slot yielded can be booked, and every row with a button and no player name and no competition block yields its slot |
| GoClient.OfferedRowYieldsSlot | pkg/clients/bookingclient.go:126-132 | Every qualifying row contributes its slot |
| GoClient.SlotComesFromOfferedRow | pkg/clients/bookingclient.go:126-132 | Every slot comes from a qualifying row |
| GoClient.SlotsOfAppend | pkg/clients/bookingclient.go:111-133 | The scan distributes over concatenated rows, so row order is kept |
| Forms.CaptureForm | pkg/clients/bookingclient.go:117-124 | The input loop leaves the form the capture rule defines |
| Forms.FormKeys | pkg/clients/bookingclient.go:117-124 | A key is in the form iff some input with both attributes writes it |
| Forms.LastWriteWins | pkg/clients/bookingclient.go:121-123 | A later input with the same name overwrites an earlier one |
| Models.AddValue | pkg/clients/bookingclient.go:151 | `Add` appends the value to the key's list and leaves other keys alone |
| Models.SetValue | pkg/clients/bookingclient.go:155 | `Set` makes the key's list exactly the value and leaves other keys alone |
| GoClient.BuildBookingQuery | pkg/clients/bookingclient.go:147-157 | The `Add` loop followed by `Set` yields the booking values |
| GoClient.BookingValuesShape | pkg/clients/bookingclient.go:139-155 | The query holds every form field once, plus a single numslots = party size that overrides a form-supplied numslots |
| Strings.NatToStringRoundTrip | pkg/clients/bookingclient.go:155 | The decimal text of the party size reads back as the party size |
| Strings.NatToStringInjective | pkg/clients/bookingclient.go:155 | Different party sizes give different numslots texts |
| GoClient.BookTimeSlot | pkg/clients/bookingclient.go:138-193 | A dry run returns "dryrun-booking-id" and sends nothing. Otherwise it sends the query for `len(partners)+1` and returns the outcome of the answer |
| GoClient.BookingOutcome | pkg/clients/bookingclient.go:165-192 | Success iff a 200 page's banner is exactly the confirmation phrase and the final URL carries an id. The id is then non-empty. On any error the id is "". A wrong banner gives "booking failed: unexpected confirmation message" |
| GoClient.ExtractBookingId | pkg/clients/bookingclient.go:195-203 | An error iff no `?edit=`/`&edit=` is followed by a non-'&' character, and the error names the URL. An id is the non-empty run without '&' right after the leftmost match, ending at the URL's end or at '&' |
| BookingUrl.FindEdit | pkg/clients/bookingclient.go:197-198 | Finds the leftmost match position |
| BookingUrl.FindEditId | pkg/clients/bookingclient.go:197-202 | The Go `extractBookingID` and the Python `extract_booking_id` (api/app/utils/html_parser.py:93-99) use the same expression. None iff there is no match. A found id is the non-empty run without '&' that starts right after the leftmost match and ends at the URL's end or at '&' |
| BookingUrl.TakeUntilStopsAtSeparator | pkg/clients/bookingclient.go:197 | The capture `[^&]+` stops at the first '&' |
| BookingUrl.IdFromRedirect | pkg/clients/bookingclient.go:195-203 | From `address?edit=<id>` followed by nothing or by '&', the id is read back exactly |
| BookingUrl.IdAfterOtherParameter | pkg/clients/bookingclient.go:195-203 | From `address?other&edit=<id>`, where the first parameter is not an `edit`, the id is read back exactly |
| BookingUrl.MidUrlExample | pkg/clients/bookingclient.go:195-203 | The redirect `…/memberbooking/?other=param&edit=67890&another=value` gives the id 67890 |
| BookingUrl.FirstEditWins | pkg/clients/bookingclient.go:197-198 | With two `edit` parameters, the leftmost one gives the id |
| BookingUrl.EmptyEditHasNoId | pkg/clients/bookingclient.go:197-201 | `edit=` followed directly by '&' is no match |
| GoClient.PartnerFormFields | pkg/clients/bookingclient.go:212-216 | The partner request carries edit, addpartner and partnerslot, once each |
| GoClient.AddPlayingPartner | pkg/clients/bookingclient.go:205-235 | A dry run sends nothing and succeeds. Otherwise one GET with the three fields is sent. It fails iff the transport fails or the status is not 200, and the status error names the code |
| LegacyClient.ScanRows | pkg/client/client.go:108-130 | The callback loop yields exactly the legacy row-rule slots |
| LegacyClient.GetCourseAvailability | pkg/client/client.go:79-133 | A failed fetch, including a non-200 status, gives an empty list and the error; otherwise the legacy slots |
| LegacyClient.AvailabilityRowRule | pkg/client/client.go:108-130 | Every slot yielded can be booked. A row with no booked cell, no blocked cell and a button yields its slot |
| LegacyClient.RowRulesDiffer | pkg/client/client.go:109-111 | A row with a player name but no booked cell is offered by the legacy client only |
| LegacyClient.QueryAfterNothing | pkg/client/client.go:142-143 | Before the loop the query holds only numslots=4 |
| LegacyClient.QueryAfterStep | pkg/client/client.go:145-147 | Each `Add` of a form field extends the query by that field |
| LegacyClient.BuildBookingQuery | pkg/client/client.go:142-149 | The query is numslots=4 followed by every form field |
| LegacyClient.NumslotsAppendedNotOverridden | pkg/client/client.go:142-149 | A form numslots becomes a second value after "4", where the current client replaces it |
| LegacyClient.BookTimeSlot | pkg/client/client.go:135-169 | Sends the legacy query. Booked iff a 200 page's banner is exactly the phrase. An error iff the page does not arrive |
| HtmlParser.ParseLoginResponse | api/app/utils/html_parser.py:10-19 | False without a title; otherwise true iff the stripped title starts with "Welcome", case-sensitively |
| HtmlParser.LoginChecksDiffer | api/app/utils/html_parser.py:19 | A title with a leading blank logs in under the Python check and not under the Go one |
| HtmlParser.LoginChecksAgreeOnTrimmedTitle | api/app/utils/html_parser.py:19 | On a single title without surrounding blanks the Python and Go checks agree |
| HtmlParser.ParseAvailability | api/app/utils/html_parser.py:22-66 | Rows without a `th` are skipped. The time is the stripped first `th`. The row rule is Go's. The form uses the Python rule |
| HtmlParser.AvailabilityRowRule | api/app/utils/html_parser.py:36-63 | Every returned slot can be booked and has a stripped label; every qualifying row yields its slot |
| HtmlParser.PlainRowReadAlike | api/app/utils/html_parser.py:36-63 | On a row with one stripped `th` and no empty name or value, the Python reader and the Go client agree |
| HtmlParser.PortAgreesWithGo | api/app/utils/html_parser.py:22-66 | On such rows the Python port returns exactly the Go client's slots |
| Forms.PyRuleStricter | api/app/utils/html_parser.py:50-54 | Every input the Python rule captures, Go's captures too |
| Forms.PyFormKeysWithinGo | api/app/utils/html_parser.py:49-54 | The Python form's keys are among the Go form's keys |
| Forms.RulesAgreeWithoutEmpties | api/app/utils/html_parser.py:49-54 | Without empty names or values, the two rules build the same form |
| Forms.EmptyValueDiverges | api/app/utils/html_parser.py:53 | An input with an empty value is captured by Go and dropped by Python |
| HtmlParser.ParseBookingResponse | api/app/utils/html_parser.py:69-90 | (True, "") iff the stripped banner equals the phrase exactly; otherwise (False, "Booking failed - time slot may no longer be available") |
| Strings.TrimRightChar | api/app/services/booking_client.py:56 | The result is a prefix that does not end in the character, and everything removed was that character |
| PyBookingClient.BookingClient.constructor | api/app/services/booking_client.py:49-59 | Stores the base URL without trailing slashes, no session, and the given cookies or none |
| PyBookingClient.TrimSlashes | api/app/services/booking_client.py:56 | Any number of trailing slashes is removed, giving the site back |
| PyBookingClient.SingleSlashBase | api/app/services/booking_client.py:56 | One trailing slash is removed |
| PyBookingClient.BookingClient.EnsureClient | api/app/services/booking_client.py:70-79 | Creates the session from the initial cookies only when none exists |
| PyBookingClient.BookingClient.Close | api/app/services/booking_client.py:81-85 | Afterwards there is no session, also when there was none |
| PyBookingClient.BookingClient.GetCookies | api/app/services/booking_client.py:225-233 | No session gives no cookies; otherwise the session's cookies |
| PyBookingClient.BookingClient.Send | api/app/services/booking_client.py:106-110 | The response is the transport's answer, and the cookies it sets join the jar |
| PyBookingClient.ReadPage | api/app/services/booking_client.py:111 | A page is read iff the request succeeds with a 2xx status and a readable body; other statuses raise an HTTP status error |
| PyBookingClient.BookingClient.Login | api/app/services/booking_client.py:87-113 | Ensures the session and posts the login form. A raised error passes through; otherwise the result is the title check |
| PyBookingClient.RequestsMatchGo | api/app/services/booking_client.py:106-131 | For a base URL with trailing slashes, the login and availability requests equal the Go client's requests for that site plus one slash |
| PyBookingClient.BookingClient.GetAvailability | api/app/services/booking_client.py:115-134 | A raised error passes through; otherwise the parsed slots |
| PyBookingClient.BookingCheck | api/app/services/booking_client.py:156-160 | Passes iff the slot can be booked and 1 <= num_slots <= 4. The bookable check comes first |
| PyBookingClient.ParamsMatchGoQuery | api/app/services/booking_client.py:167 | The params are the form with numslots overridden, equal to the Go query |
| PyBookingClient.BookingReply | api/app/services/booking_client.py:173-184 | An id iff a 2xx page's stripped banner is the phrase and the final URL has an id. A wrong banner raises the parser's message. A missing id raises "Could not extract booking ID from response" |
| PyBookingClient.BookingClient.BookTimeSlot | api/app/services/booking_client.py:136-184 | The validation errors come before the dry run. A valid dry run returns the sentinel without sending. Otherwise one GET with the params, read by `BookingReply` |
| PyBookingClient.PartnerParamsMatchGo | api/app/services/booking_client.py:214-221 | The partner request equals the Go client's |
| PyBookingClient.PartnerReply | api/app/services/booking_client.py:223 | Fails iff the transport fails; otherwise true iff the status is 200 |
| PyBookingClient.BookingClient.AddPartner | api/app/services/booking_client.py:186-223 | "slot_num must be between 2 and 4" comes before the dry run. A dry run gives true without sending. Otherwise one GET, read by `PartnerReply` |
| SessionStore.Key | api/app/services/session_manager.py:43-45 | The key is "session:" followed by the token |
| SessionStore.KeyInjective | api/app/services/session_manager.py:43-45 | Different tokens have different keys |
| SessionStore.Redis.SetEx | api/app/services/session_manager.py:65-69 | A positive TTL stores the data with that TTL; a TTL that is not positive is refused and changes nothing |
| SessionStore.SessionManager.WithDefaultTtl | api/app/services/session_manager.py:29-42 | A manager built without a TTL uses the default of 1800 seconds |
| SessionStore.SessionManager.StoreSession | api/app/services/session_manager.py:47-75 | Writes the data under the token's key with the manager's TTL and returns the token |
| SessionStore.SessionManager.GetSession | api/app/services/session_manager.py:77-109 | A missing key raises "Session not found or expired" and changes nothing. A present key returns its data unchanged and resets its TTL |
| SessionStore.ExpireKeepsData | api/app/services/session_manager.py:103 | The refresh keeps the data and every other key |
| SessionStore.NonPositiveRefreshDeletes | api/app/services/session_manager.py:103 | With a TTL that is not positive, the refresh deletes the key |
| SessionStore.SessionManager.DeleteSession | api/app/services/session_manager.py:111-128 | True iff the key existed; afterwards it is gone |
| SessionStore.StoreGetDelete | api/app/services/session_manager.py:47-128 | A stored session reads back until deleted; deleting one token leaves others as they were |
| SessionStore.SessionManager.SessionExists | api/app/services/session_manager.py:130-140 | Presence of the key, with nothing changed |
| SessionStore.SessionManager.GetTtl | api/app/services/session_manager.py:142-152 | -2 for a missing key, -1 for a key without TTL, otherwise the TTL |
| Encryption.DecryptCredentials | api/app/services/encryption.py:52-91 | Text with a non-ASCII character gives "Decryption failed" with the detail `b64decode` raises, because its plain `ValueError` is caught by the catch-all and not by the `binascii.Error` handler. Otherwise bad base64 gives "Invalid base64 encoding". Fewer than 13 bytes gives "too short". A cipher or UTF-8 failure gives "Decryption failed" with its detail. A plaintext without ':' gives "missing separator". Success means a username without ':' and a plaintext `username:pin` |
| Encryption.NonAsciiInputFailsDecryption | api/app/services/encryption.py:64-91 | Whatever the cipher, "é" is reported as a failed decryption, not as bad base64 |
| Encryption.PayloadLayout | api/app/services/encryption.py:41-50 | The encoded payload is the 12-byte nonce followed by the ciphertext |
| Encryption.RoundTrip | api/app/services/encryption.py:41-84 | With inverse base64 and cipher, decryption gives back the username and the pin when the username has no ':'; the pin may hold colons |
| Encryption.ColonInUsernameMisreads | api/app/services/encryption.py:83 | A colon in the username makes decryption return a shorter, different username |
| Strings.SplitAtFirstOfJoined | api/app/services/encryption.py:83 | Splitting `u:p` at the first colon gives (u, p) when u has no colon |

## Left out

- HTTP itself is not modelled: cookie-jar internals, headers, user agents, redirects, timeouts and async contexts. The request a client would send is returned, and each answer is a parameter.
- HTML parsing and CSS selection are not modelled: goquery and BeautifulSoup are replaced by pre-parsed `Page` and `Row` values. The Go `Text()` of several matches is their concatenation (`Strings.Concat`).
- The float jitter of `GetRandomRetryDelay` is not modelled: only the whole-second base band is. Randomness is a stream of numbers.
- Date arithmetic and formatting in `Run`, and the clock, are not modelled: the date string is an input.
- Logging is not modelled, in every module.
- The Twilio client is not modelled: the SMS service is a scripted oracle, and a send error only changes what is logged.
- Config and flag parsing, the slog `Init`, the FastAPI wiring and the pydantic models are not modelled.
- The cryptographic primitives are abstract: SHA-256 key derivation, AES-256-GCM, base64 and `os.urandom` are functions of a `Cipher` value or inputs. UTF-8 encoding and decoding happen inside the cipher's functions.
- `uuid4` tokens and creation timestamps are inputs. Session data is kept as a value, not as JSON text.
- Redis networking and wall-clock expiry are not modelled: a TTL is only a stored number, and it never counts down.
- Strings.TrimSpace: white space is Go's `unicode.IsSpace` on the Latin-1 range (`Strings.IsSpace`). Go's other Unicode spaces (U+1680, U+2000-U+200A, U+2028, U+2029, U+202F, U+205F, U+3000) are not trimmed. The Go caller that shows this is `PartnerConfig.GetPlayingPartnersList`: a partner id padded with one of those spaces keeps it in the model and loses it in Go.
- HtmlParser.ParseLoginResponse, HtmlParser.ParseAvailability, HtmlParser.ParseBookingResponse: Python's `str.strip` is modelled by the same `Strings.TrimSpace`. Python also strips the separators U+001C-U+001F and the wider Unicode spaces, so a title, time label or banner that begins or ends with one of those is stripped in the port and not in the model.
- Strings.ToLower: lower-cases the ASCII letters only, while Go's `strings.ToLower` maps every Unicode upper-case letter. Non-ASCII letters that lower-case to an ASCII one are therefore left alone: U+0130 'İ' becomes 'i' in Go, so `ParseLogLevel` of "WARNİNG" is warn in Go and info in the model (Logger.ParseLogLevel), and the Kelvin sign U+212A becomes 'k'.
- Orchestrator.TryBooking: the branch where `PickRandomTime` fails is proved unreachable (the candidate list is never empty there), so its "continue without sleeping" is not part of any trace.
- The Go `BookTimeSlot` never returns an empty id without an error (`GoClient.BookingOutcome`). `Run`'s (4,10) retry branch is kept for scripted services that do.
- Encryption.EncryptCredentials: has no contract of its own; its layout and round trip are stated by `Encryption.PayloadLayout` and `Encryption.RoundTrip`.
- PyBookingClient.BookingClient: the async context-manager entry and exit are not modelled separately; they are `EnsureClient` and `Close`.
- The `Err` branch of `http.NewRequest` is not modelled separately. It is taken only for a base URL that does not parse, such as one with a stray `%`; the base URL is whatever the user configures. The client then returns that error as it returns a transport error (pkg/clients/bookingclient.go:55-58, pkg/client/client.go:52-55), which a `Transport` answering `Err` covers.
