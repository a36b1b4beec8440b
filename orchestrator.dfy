/** The booking run (`App.Run`): log in once, then for at most `Retries`
    rounds fetch the availability, narrow it to the bookable slots inside the
    window, pick one at random and try to book it; on success add the playing
    partners and send one success SMS, and when every round fails send one
    failure SMS and return `ErrNoBooking`.

    The booking site and the SMS gateway are scripted oracles: the k-th call
    of each kind receives the k-th scripted answer. Any single run of the real
    services answers some script, so what holds for every script holds for
    every run. Each call, and each sleep, is recorded in the returned trace. */
module Orchestrator {
  import opened Wrappers
  import opened Models
  import opened Strings
  import opened TeeTimes
  import PartnerConfig

  const ErrNoBooking := "failed to book tee time"

  /** The settings the run reads (`config.Config`). */
  datatype AppConfig = AppConfig(
    timeStart: string,
    timeEnd: string,
    retries: int,
    dryRun: bool,
    username: string,
    pin: string,
    fromNumber: string,
    toNumber: string,
    playingPartners: string)

  /** Scripted answers of `BookingService` and `SMSService`, by call number. */
  datatype Services = Services(
    login: (bool, Option<string>),
    availability: nat -> Result<seq<TimeSlot>, string>,
    booking: nat -> (string, Option<string>),
    addPartner: nat -> Option<string>,
    sendSms: nat -> Option<string>)

  /** One recorded call to a service, with its arguments and its answer, or one
      sleep with its band and the whole seconds drawn in it. */
  datatype Event =
    | LoginCall(username: string, pin: string)
    | AvailabilityCall(date: string, times: Result<seq<TimeSlot>, string>)
    | BookCall(slot: TimeSlot, partners: seq<string>, dryRun: bool, bookingId: string, bookError: Option<string>)
    | PartnerCall(booking: string, partnerId: string, slotNumber: int, dryRun: bool, partnerError: Option<string>)
    | SmsCall(from: string, to: string, body: string, dryRun: bool, smsError: Option<string>)
    | Sleep(minSeconds: int, maxSeconds: int, seconds: int)

  /** The errors `Run` returns. */
  datatype RunError =
    | LoginFailed(cause: string)
    | AvailabilityFailed(cause: string)
    | NoBooking(message: string)

  /** The text of each error; only `NoBooking` wraps `ErrNoBooking`. */
  function ErrorText(e: RunError): (text: string)
    ensures e.NoBooking? ==> HasPrefix(text, ErrNoBooking + ": ")
  {
    match e
    case LoginFailed(cause) => "login failed: " + cause
    case AvailabilityFailed(cause) => "failed to get availability: " + cause
    case NoBooking(message) => ErrNoBooking + ": " + message
  }

  // ---------------------------------------------------------------------------
  // Retry delays

  /** The whole-second part of `GetRandomRetryDelay(min, max)`, with
      `rand.Intn(max - min + 1)` answered by `draw % (max - min + 1)`. */
  function RetryBaseSeconds(minSeconds: int, maxSeconds: int, draw: nat): (seconds: int)
    requires minSeconds <= maxSeconds
    ensures minSeconds <= seconds <= maxSeconds
  {
    minSeconds + draw % (maxSeconds - minSeconds + 1)
  }

  /** Every whole second of the band is the delay of some draw. */
  lemma RetryBandReachable(minSeconds: int, maxSeconds: int, seconds: int)
    requires minSeconds <= seconds <= maxSeconds
    ensures RetryBaseSeconds(minSeconds, maxSeconds, seconds - minSeconds) == seconds
  {
  }

  // ---------------------------------------------------------------------------
  // Messages

  function SuccessMessage(time: string, date: string, people: int): string {
    "Successfully booked tee time: " + time + " on " + date + " for " + IntToString(people) + " people"
  }

  function FailureMessage(date: string): string {
    "Failed to book tee time on " + date
  }

  // ---------------------------------------------------------------------------
  // The shape of a trace

  /** The slots a round may book from a fetched list: bookable and strictly inside the window. */
  function Candidates(cfg: AppConfig, times: seq<TimeSlot>): seq<TimeSlot> {
    Between(Bookable(times), cfg.timeStart, cfg.timeEnd)
  }

  /** A booking call whose answer is a booking id and no error. */
  predicate IsSuccess(e: Event) {
    e.BookCall? && e.bookError.None? && e.bookingId != ""
  }

  /** The band a round sleeps in after `prev`, when it sleeps at all. */
  function SleepBand(cfg: AppConfig, prev: Event): Option<(int, int)> {
    if prev.AvailabilityCall? && prev.times.Ok? && Candidates(cfg, prev.times.value) == [] then Some((5, 15))
    else if prev.BookCall? && prev.bookError.Some? then Some((3, 8))
    else if prev.BookCall? && prev.bookingId == "" then Some((4, 10))
    else None
  }

  predicate IsRoundEvent(e: Event) {
    e.AvailabilityCall? || e.BookCall? || e.Sleep?
  }

  /** What may come right after `prev` inside the retry rounds: a fetch for the
      date after the login or a sleep; a booking of one of the candidates of the
      fetch just made, with the configured partners and mode; a sleep in the
      band the previous outcome calls for. */
  predicate Follows(cfg: AppConfig, date: string, partners: seq<string>, prev: Event, next: Event) {
    match next
    case AvailabilityCall(d, _) => d == date && (prev.LoginCall? || prev.Sleep?)
    case BookCall(slot, ps, dry, _, _) =>
      prev.AvailabilityCall? && prev.times.Ok? && slot in Candidates(cfg, prev.times.value)
      && ps == partners && dry == cfg.dryRun
    case Sleep(lo, hi, s) => SleepBand(cfg, prev) == Some((lo, hi)) && lo <= s <= hi
    case _ => false
  }

  /** The login followed by retry rounds, each event allowed after the one before. */
  predicate Rounds(cfg: AppConfig, date: string, partners: seq<string>, t: seq<Event>) {
    && |t| >= 1
    && t[0] == LoginCall(cfg.username, cfg.pin)
    && forall j :: 1 <= j < |t| ==> IsRoundEvent(t[j]) && Follows(cfg, date, partners, t[j - 1], t[j])
  }

  /** Between two rounds: the last event is the login or a sleep. */
  predicate Settled(t: seq<Event>) {
    |t| >= 1 && (t[|t| - 1].LoginCall? || t[|t| - 1].Sleep?)
  }

  /** The answers of the availability calls, in call order. */
  function AvailabilityCalls(t: seq<Event>): seq<Result<seq<TimeSlot>, string>> {
    if t == [] then []
    else AvailabilityCalls(t[..|t| - 1]) + (if t[|t| - 1].AvailabilityCall? then [t[|t| - 1].times] else [])
  }

  /** The answers of the booking calls, in call order. */
  function BookingCalls(t: seq<Event>): seq<(string, Option<string>)> {
    if t == [] then []
    else BookingCalls(t[..|t| - 1]) + (if t[|t| - 1].BookCall? then [(t[|t| - 1].bookingId, t[|t| - 1].bookError)] else [])
  }

  /** The number of SMS sent. */
  function SmsCount(t: seq<Event>): nat {
    if t == [] then 0 else SmsCount(t[..|t| - 1]) + (if t[|t| - 1].SmsCall? then 1 else 0)
  }

  /** The first `n` answers of a script. */
  predicate Replays<T(==)>(answers: seq<T>, script: nat -> T, n: nat) {
    |answers| == n && forall k :: 0 <= k < n ==> answers[k] == script(k)
  }

  lemma ProjectionsSnoc(t: seq<Event>, e: Event)
    ensures AvailabilityCalls(t + [e]) == AvailabilityCalls(t) + (if e.AvailabilityCall? then [e.times] else [])
    ensures BookingCalls(t + [e]) == BookingCalls(t) + (if e.BookCall? then [(e.bookingId, e.bookError)] else [])
    ensures SmsCount(t + [e]) == SmsCount(t) + (if e.SmsCall? then 1 else 0)
  {
    assert (t + [e])[..|t|] == t;
  }

  lemma RoundsSnoc(cfg: AppConfig, date: string, partners: seq<string>, t: seq<Event>, e: Event)
    requires Rounds(cfg, date, partners, t)
    requires IsRoundEvent(e) && Follows(cfg, date, partners, t[|t| - 1], e)
    ensures Rounds(cfg, date, partners, t + [e])
  {
    var u := t + [e];
    forall j | 1 <= j < |u|
      ensures IsRoundEvent(u[j]) && Follows(cfg, date, partners, u[j - 1], u[j])
    {
      if j < |t| {
        assert u[j] == t[j] && u[j - 1] == t[j - 1];
      }
    }
  }

  /** Rounds hold no SMS. */
  lemma {:induction false} RoundsSendNoSms(cfg: AppConfig, date: string, partners: seq<string>, t: seq<Event>)
    requires Rounds(cfg, date, partners, t)
    ensures SmsCount(t) == 0
    decreases |t|
  {
    if |t| > 1 {
      var p := t[..|t| - 1];
      assert Rounds(cfg, date, partners, p) by {
        forall j | 1 <= j < |p|
          ensures IsRoundEvent(p[j]) && Follows(cfg, date, partners, p[j - 1], p[j])
        {
          assert p[j] == t[j] && p[j - 1] == t[j - 1];
        }
      }
      RoundsSendNoSms(cfg, date, partners, p);
    } else {
      assert t == [] + [t[0]];
      ProjectionsSnoc([], t[0]);
    }
  }

  /** Nothing comes after a successful booking inside the rounds, so at most
      one booking succeeds and it is the last event. */
  lemma SuccessEndsRounds(cfg: AppConfig, date: string, partners: seq<string>, t: seq<Event>, j: nat)
    requires Rounds(cfg, date, partners, t)
    requires j < |t| && IsSuccess(t[j])
    ensures j == |t| - 1
  {
    if j + 1 < |t| {
      OnlyLastMaySucceed(cfg, date, partners, t, j);
    }
  }

  lemma OnlyLastMaySucceed(cfg: AppConfig, date: string, partners: seq<string>, t: seq<Event>, j: nat)
    requires Rounds(cfg, date, partners, t)
    requires j + 1 < |t|
    ensures !IsSuccess(t[j])
  {
    assert Follows(cfg, date, partners, t[j], t[j + 1]);
  }

  /** Read forwards, between rounds every outcome is followed by what the run
      does next: a fetch with no candidate by a sleep in (5,15), a fetch with
      candidates by a booking, a failed booking by a sleep in (3,8), a booking
      without id by a sleep in (4,10), and a sleep by the next fetch or by nothing. */
  lemma RoundsLead(cfg: AppConfig, date: string, partners: seq<string>, t: seq<Event>, j: nat)
    requires Rounds(cfg, date, partners, t) && Settled(t)
    requires 1 <= j < |t|
    ensures t[j].AvailabilityCall? && t[j].times.Ok? && Candidates(cfg, t[j].times.value) == [] ==>
      j + 1 < |t| && t[j + 1].Sleep? && (t[j + 1].minSeconds, t[j + 1].maxSeconds) == (5, 15)
    ensures t[j].AvailabilityCall? && t[j].times.Ok? && Candidates(cfg, t[j].times.value) != [] ==>
      j + 1 < |t| && t[j + 1].BookCall?
    ensures t[j].BookCall? && t[j].bookError.Some? ==>
      j + 1 < |t| && t[j + 1].Sleep? && (t[j + 1].minSeconds, t[j + 1].maxSeconds) == (3, 8)
    ensures t[j].BookCall? && t[j].bookError.None? && t[j].bookingId == "" ==>
      j + 1 < |t| && t[j + 1].Sleep? && (t[j + 1].minSeconds, t[j + 1].maxSeconds) == (4, 10)
    ensures t[j].Sleep? && j + 1 < |t| ==> t[j + 1].AvailabilityCall?
    ensures !IsSuccess(t[j])
    ensures t[j].AvailabilityCall? ==> t[j].times.Ok?
  {
    if j + 1 < |t| {
      assert Follows(cfg, date, partners, t[j], t[j + 1]);
    }
  }

  // ---------------------------------------------------------------------------
  // The run

  /** The partner calls after a booking: partner k, in list order, added to
      slot k + 2, with the k-th scripted answer. */
  function PartnerCalls(bookingId: string, partners: seq<string>, dryRun: bool, svc: Services): (r: seq<Event>)
    ensures |r| == |partners|
    ensures forall k :: 0 <= k < |partners| ==>
      r[k] == PartnerCall(bookingId, partners[k], k + 2, dryRun, svc.addPartner(k))
  {
    seq(|partners|, k requires 0 <= k < |partners| => PartnerCall(bookingId, partners[k], k + 2, dryRun, svc.addPartner(k)))
  }

  /** The partner loop: every partner is added, whatever the previous
      additions answered, and nothing else is called. */
  method AddPartners(svc: Services, bookingId: string, partners: seq<string>, dryRun: bool, trace0: seq<Event>)
    returns (trace: seq<Event>)
    ensures trace == trace0 + PartnerCalls(bookingId, partners, dryRun, svc)
    ensures AvailabilityCalls(trace) == AvailabilityCalls(trace0)
    ensures BookingCalls(trace) == BookingCalls(trace0)
    ensures SmsCount(trace) == SmsCount(trace0)
  {
    ghost var calls := PartnerCalls(bookingId, partners, dryRun, svc);
    trace := trace0;
    for k := 0 to |partners|
      invariant trace == trace0 + calls[..k]
      invariant AvailabilityCalls(trace) == AvailabilityCalls(trace0)
      invariant BookingCalls(trace) == BookingCalls(trace0)
      invariant SmsCount(trace) == SmsCount(trace0)
    {
      var slotNumber := k + 2;
      var err := svc.addPartner(k);
      var e := PartnerCall(bookingId, partners[k], slotNumber, dryRun, err);
      assert e == calls[k];
      ProjectionsSnoc(trace, e);
      assert calls[..k + 1] == calls[..k] + [e];
      trace := trace + [e];
    }
    assert calls[..|partners|] == calls;
  }

  /** The bookable slots inside the window, in the order the run sees them
      (after the sort): the same slots as `Candidates`. */
  method Narrow(cfg: AppConfig, times: seq<TimeSlot>) returns (available: seq<TimeSlot>)
    ensures forall ts :: ts in available <==> ts in Candidates(cfg, times)
    ensures available == [] <==> Candidates(cfg, times) == []
  {
    var bookable := FilterByBookable(times);
    var a := new TimeSlot[|bookable|](k requires 0 <= k < |bookable| => bookable[k]);
    assert a[..] == bookable;
    SortTimesAscending(a);
    available := FilterBetweenTimes(a[..], cfg.timeStart, cfg.timeEnd);
    forall ts
      ensures ts in available <==> ts in Candidates(cfg, times)
    {
      assert ts in a[..] <==> ts in multiset(a[..]);
      assert ts in bookable <==> ts in multiset(bookable);
      Seqs.FilterMembership(Bookable(times), (s: TimeSlot) => InWindow(s, cfg.timeStart, cfg.timeEnd), ts);
    }
    if available != [] {
      assert available[0] in Candidates(cfg, times);
    }
    var c := Candidates(cfg, times);
    if c != [] {
      assert c[0] in available;
    }
  }

  // ---------------------------------------------------------------------------
  // How a run ends

  /** The partner list the run books for. */
  function Partners(cfg: AppConfig): seq<string> {
    PartnerConfig.PartnersList(cfg.playingPartners)
  }

  /** The calls replay the scripts in order, and there are at most `Retries`
      fetches and no more bookings than fetches. */
  predicate WithinBudget(cfg: AppConfig, svc: Services, t: seq<Event>) {
    && |AvailabilityCalls(t)| <= (if cfg.retries < 0 then 0 else cfg.retries)
    && Replays(AvailabilityCalls(t), svc.availability, |AvailabilityCalls(t)|)
    && Replays(BookingCalls(t), svc.booking, |BookingCalls(t)|)
    && |BookingCalls(t)| <= |AvailabilityCalls(t)|
  }

  /** A failed fetch ended the run: it is the last event, after complete rounds,
      and no SMS went out. */
  predicate AbortedRun(cfg: AppConfig, date: string, t: seq<Event>, cause: string) {
    && |t| >= 2
    && t[|t| - 1] == AvailabilityCall(date, Err(cause))
    && Rounds(cfg, date, Partners(cfg), t[..|t| - 1])
    && Settled(t[..|t| - 1])
    && SmsCount(t) == 0
  }

  /** The index of the successful booking in a run that booked. */
  function BookingIndex(cfg: AppConfig, t: seq<Event>): int {
    |t| - |Partners(cfg)| - 2
  }

  /** A booking succeeded: rounds up to that booking, then partner k added to
      slot k + 2 for every partner in list order, then the one success SMS. */
  predicate BookedRun(cfg: AppConfig, svc: Services, date: string, t: seq<Event>) {
    var partners := Partners(cfg);
    var b := BookingIndex(cfg, t);
    && 1 <= b
    && IsSuccess(t[b])
    && Rounds(cfg, date, partners, t[..b + 1])
    && t[b + 1..|t| - 1] == PartnerCalls(t[b].bookingId, partners, cfg.dryRun, svc)
    && t[|t| - 1] == SmsCall(cfg.fromNumber, cfg.toNumber,
         SuccessMessage(t[b].slot.time, date, |partners| + 1), cfg.dryRun, svc.sendSms(0))
    && SmsCount(t) == 1
  }

  /** Every round failed: the whole budget of fetches was spent on complete
      rounds, then the one failure SMS. */
  predicate ExhaustedRun(cfg: AppConfig, svc: Services, date: string, t: seq<Event>) {
    && |t| >= 2
    && Rounds(cfg, date, Partners(cfg), t[..|t| - 1])
    && Settled(t[..|t| - 1])
    && |AvailabilityCalls(t)| == (if cfg.retries < 0 then 0 else cfg.retries)
    && t[|t| - 1] == SmsCall(cfg.fromNumber, cfg.toNumber, FailureMessage(date), cfg.dryRun, svc.sendSms(0))
    && SmsCount(t) == 1
  }

  /** What one round did. */
  datatype Step = Continue | Abort(cause: string) | Done

  /** One pass of the retry loop, from a fetch to a sleep, a failed fetch, or a
      completed booking. */
  method RunRound(cfg: AppConfig, svc: Services, rand: nat -> nat, date: string,
                  i: nat, draws0: nat, bookings0: nat, trace0: seq<Event>)
    returns (step: Step, trace: seq<Event>, draws: nat, bookings: nat)
    requires Rounds(cfg, date, Partners(cfg), trace0) && Settled(trace0)
    requires Replays(AvailabilityCalls(trace0), svc.availability, i)
    requires Replays(BookingCalls(trace0), svc.booking, bookings0) && bookings0 <= i
    ensures step == Continue ==>
      && Rounds(cfg, date, Partners(cfg), trace) && Settled(trace)
      && Replays(AvailabilityCalls(trace), svc.availability, i + 1)
      && Replays(BookingCalls(trace), svc.booking, bookings) && bookings <= i + 1
    ensures step.Abort? ==>
      && svc.availability(i) == Err(step.cause)
      && trace == trace0 + [AvailabilityCall(date, Err(step.cause))]
      && bookings == bookings0
    ensures step == Done ==>
      && BookedRun(cfg, svc, date, trace)
      && Replays(AvailabilityCalls(trace), svc.availability, i + 1)
      && Replays(BookingCalls(trace), svc.booking, bookings) && bookings <= i + 1
  {
    var times := svc.availability(i);
    var fetch := AvailabilityCall(date, times);
    if times.Err? {
      return Abort(times.error), trace0 + [fetch], draws0, bookings0;
    }
    FetchStep(cfg, svc, date, trace0, i, bookings0);
    trace := trace0 + [fetch];

    var available := Narrow(cfg, times.value);
    if |available| == 0 {
      var pause := Sleep(5, 15, RetryBaseSeconds(5, 15, rand(draws0)));
      SleepStep(cfg, svc, date, trace, pause, i, bookings0);
      return Continue, trace + [pause], draws0 + 1, bookings0;
    }
    step, trace, draws, bookings := TryBooking(cfg, svc, rand, date, i, draws0, bookings0, trace, available);
  }

  /** The second half of a round: pick one of the candidates, book it, and
      sleep in the band the outcome calls for unless the booking succeeded. */
  method TryBooking(cfg: AppConfig, svc: Services, rand: nat -> nat, date: string,
                    i: nat, draws0: nat, bookings0: nat, trace0: seq<Event>, available: seq<TimeSlot>)
    returns (step: Step, trace: seq<Event>, draws: nat, bookings: nat)
    requires Rounds(cfg, date, Partners(cfg), trace0) && |trace0| >= 2
    requires trace0[|trace0| - 1].AvailabilityCall? && trace0[|trace0| - 1].times.Ok?
    requires forall ts :: ts in available <==> ts in Candidates(cfg, trace0[|trace0| - 1].times.value)
    requires available != []
    requires Replays(AvailabilityCalls(trace0), svc.availability, i + 1)
    requires Replays(BookingCalls(trace0), svc.booking, bookings0) && bookings0 <= i
    ensures step == Continue ==>
      && Rounds(cfg, date, Partners(cfg), trace) && Settled(trace)
      && Replays(AvailabilityCalls(trace), svc.availability, i + 1)
      && Replays(BookingCalls(trace), svc.booking, bookings) && bookings <= i + 1
    ensures step == Done ==>
      && BookedRun(cfg, svc, date, trace)
      && Replays(AvailabilityCalls(trace), svc.availability, i + 1)
      && Replays(BookingCalls(trace), svc.booking, bookings) && bookings <= i + 1
    ensures !step.Abort?
  {
    var (slot, pickErr) := PickRandomTime(available, rand(draws0));
    draws := draws0 + 1;
    // the list is not empty, so the pick cannot fail
    assert pickErr.None?;
    var playingPartners := PartnerConfig.GetPlayingPartnersList(cfg.playingPartners);

    var (bookingId, bookErr) := svc.booking(bookings0);
    var attempt := BookCall(slot, playingPartners, cfg.dryRun, bookingId, bookErr);
    BookStep(cfg, svc, date, trace0, attempt, i, bookings0);
    trace := trace0 + [attempt];
    bookings := bookings0 + 1;

    if bookErr.Some? {
      var pause := Sleep(3, 8, RetryBaseSeconds(3, 8, rand(draws)));
      SleepStep(cfg, svc, date, trace, pause, i, bookings);
      return Continue, trace + [pause], draws + 1, bookings;
    }
    if bookingId != "" {
      trace := Celebrate(cfg, svc, date, trace, slot, bookingId);
      return Done, trace, draws, bookings;
    }
    var pause := Sleep(4, 10, RetryBaseSeconds(4, 10, rand(draws)));
    SleepStep(cfg, svc, date, trace, pause, i, bookings);
    return Continue, trace + [pause], draws + 1, bookings;
  }

  /** A successful fetch opens the next round. */
  lemma FetchStep(cfg: AppConfig, svc: Services, date: string, t: seq<Event>, i: nat, bookings: nat)
    requires Rounds(cfg, date, Partners(cfg), t) && Settled(t)
    requires Replays(AvailabilityCalls(t), svc.availability, i)
    requires Replays(BookingCalls(t), svc.booking, bookings)
    requires svc.availability(i).Ok?
    ensures Rounds(cfg, date, Partners(cfg), t + [AvailabilityCall(date, svc.availability(i))])
    ensures Replays(AvailabilityCalls(t + [AvailabilityCall(date, svc.availability(i))]), svc.availability, i + 1)
    ensures Replays(BookingCalls(t + [AvailabilityCall(date, svc.availability(i))]), svc.booking, bookings)
  {
    var e := AvailabilityCall(date, svc.availability(i));
    ProjectionsSnoc(t, e);
    RoundsSnoc(cfg, date, Partners(cfg), t, e);
  }

  /** A booking of a candidate of the fetch just made. */
  lemma BookStep(cfg: AppConfig, svc: Services, date: string, t: seq<Event>, e: Event, i: nat, bookings: nat)
    requires Rounds(cfg, date, Partners(cfg), t)
    requires e.BookCall? && Follows(cfg, date, Partners(cfg), t[|t| - 1], e)
    requires (e.bookingId, e.bookError) == svc.booking(bookings)
    requires Replays(AvailabilityCalls(t), svc.availability, i + 1)
    requires Replays(BookingCalls(t), svc.booking, bookings)
    ensures Rounds(cfg, date, Partners(cfg), t + [e])
    ensures Replays(AvailabilityCalls(t + [e]), svc.availability, i + 1)
    ensures Replays(BookingCalls(t + [e]), svc.booking, bookings + 1)
  {
    ProjectionsSnoc(t, e);
    RoundsSnoc(cfg, date, Partners(cfg), t, e);
  }

  /** A sleep in the band the previous outcome calls for closes the round. */
  lemma SleepStep(cfg: AppConfig, svc: Services, date: string, t: seq<Event>, e: Event, i: nat, bookings: nat)
    requires Rounds(cfg, date, Partners(cfg), t)
    requires e.Sleep? && Follows(cfg, date, Partners(cfg), t[|t| - 1], e)
    requires Replays(AvailabilityCalls(t), svc.availability, i + 1)
    requires Replays(BookingCalls(t), svc.booking, bookings)
    ensures Rounds(cfg, date, Partners(cfg), t + [e]) && Settled(t + [e])
    ensures Replays(AvailabilityCalls(t + [e]), svc.availability, i + 1)
    ensures Replays(BookingCalls(t + [e]), svc.booking, bookings)
  {
    ProjectionsSnoc(t, e);
    RoundsSnoc(cfg, date, Partners(cfg), t, e);
  }

  /** After a successful booking: add the partners, then send the success SMS. */
  method Celebrate(cfg: AppConfig, svc: Services, date: string, body: seq<Event>, slot: TimeSlot, bookingId: string)
    returns (trace: seq<Event>)
    requires Rounds(cfg, date, Partners(cfg), body) && |body| >= 2
    requires body[|body| - 1] == BookCall(slot, Partners(cfg), cfg.dryRun, bookingId, None) && bookingId != ""
    ensures BookedRun(cfg, svc, date, trace)
    ensures AvailabilityCalls(trace) == AvailabilityCalls(body)
    ensures BookingCalls(trace) == BookingCalls(body)
  {
    var partners := PartnerConfig.GetPlayingPartnersList(cfg.playingPartners);
    RoundsSendNoSms(cfg, date, partners, body);
    trace := AddPartners(svc, bookingId, partners, cfg.dryRun, body);
    ghost var calls := PartnerCalls(bookingId, partners, cfg.dryRun, svc);
    var message := SuccessMessage(slot.time, date, |partners| + 1);
    var sms := SmsCall(cfg.fromNumber, cfg.toNumber, message, cfg.dryRun, svc.sendSms(0));
    ProjectionsSnoc(trace, sms);
    trace := trace + [sms];
    TailSplit(body, calls, sms, trace);
  }

  /** The three parts of a booked run's trace, read back by position. */
  lemma TailSplit(body: seq<Event>, calls: seq<Event>, last: Event, t: seq<Event>)
    requires t == body + calls + [last] && |body| >= 1
    ensures t[..|body|] == body
    ensures t[|body|..|t| - 1] == calls
    ensures t[|t| - 1] == last
  {
  }

  method Run(cfg: AppConfig, svc: Services, rand: nat -> nat, date: string)
    returns (result: Option<RunError>, trace: seq<Event>)
    ensures |trace| >= 1 && trace[0] == LoginCall(cfg.username, cfg.pin)
    ensures svc.login.1.Some? <==> result.Some? && result.value.LoginFailed?
    ensures svc.login.1.Some? ==> result == Some(LoginFailed(svc.login.1.value)) && |trace| == 1
    ensures WithinBudget(cfg, svc, trace)
    ensures result.Some? && result.value.AvailabilityFailed? ==> AbortedRun(cfg, date, trace, result.value.cause)
    ensures result.None? ==> BookedRun(cfg, svc, date, trace)
    ensures result.Some? && result.value.NoBooking? ==>
      result.value.message == FailureMessage(date) && ExhaustedRun(cfg, svc, date, trace)
  {
    trace := [LoginCall(cfg.username, cfg.pin)];
    var (loggedIn, loginErr) := svc.login;
    assert AvailabilityCalls(trace) == [] && BookingCalls(trace) == [] by {
      assert trace == [] + [trace[0]];
      ProjectionsSnoc([], trace[0]);
    }
    if loginErr.Some? {
      return Some(LoginFailed(loginErr.value)), trace;
    }
    var step;
    step, trace := RetryLoop(cfg, svc, rand, date, trace);
    if step.Abort? {
      return Some(AvailabilityFailed(step.cause)), trace;
    }
    if step.Continue? {
      var message := FailureMessage(date);
      trace := Concede(cfg, svc, date, trace, if cfg.retries < 0 then 0 else cfg.retries);
      return Some(NoBooking(message)), trace;
    }
    return None, trace;
  }

  /** The `for` loop of `Run`: at most `Retries` rounds, left early when a
      fetch fails (`Abort`) or a booking succeeds (`Done`); `Continue` means
      every round failed and the budget is spent. */
  method RetryLoop(cfg: AppConfig, svc: Services, rand: nat -> nat, date: string, trace0: seq<Event>)
    returns (step: Step, trace: seq<Event>)
    requires trace0 == [LoginCall(cfg.username, cfg.pin)]
    requires AvailabilityCalls(trace0) == [] && BookingCalls(trace0) == []
    ensures |trace| >= 1 && trace[0] == LoginCall(cfg.username, cfg.pin)
    ensures WithinBudget(cfg, svc, trace)
    ensures step.Abort? ==> AbortedRun(cfg, date, trace, step.cause)
    ensures step.Done? ==> BookedRun(cfg, svc, date, trace)
    ensures step.Continue? ==>
      && Rounds(cfg, date, Partners(cfg), trace) && Settled(trace)
      && Replays(AvailabilityCalls(trace), svc.availability, if cfg.retries < 0 then 0 else cfg.retries)
  {
    trace := trace0;
    var draws: nat := 0;
    var bookings: nat := 0;
    var i: nat := 0;
    while i < cfg.retries
      invariant (cfg.retries >= 0 ==> i <= cfg.retries) && (cfg.retries < 0 ==> i == 0)
      invariant Rounds(cfg, date, Partners(cfg), trace) && Settled(trace)
      invariant Replays(AvailabilityCalls(trace), svc.availability, i)
      invariant Replays(BookingCalls(trace), svc.booking, bookings) && bookings <= i
    {
      ghost var before := trace;
      step, trace, draws, bookings := RunRound(cfg, svc, rand, date, i, draws, bookings, trace);
      if step.Abort? {
        AbortKeepsBudget(cfg, svc, date, before, i, bookings, step.cause);
        return;
      }
      if step.Done? {
        return;
      }
      i := i + 1;
    }
    step := Continue;
  }

  /** Every round failed: send the failure SMS. */
  method Concede(cfg: AppConfig, svc: Services, date: string, body: seq<Event>, i: nat)
    returns (trace: seq<Event>)
    requires Rounds(cfg, date, Partners(cfg), body) && Settled(body)
    requires Replays(AvailabilityCalls(body), svc.availability, i)
    requires i == (if cfg.retries < 0 then 0 else cfg.retries)
    ensures ExhaustedRun(cfg, svc, date, trace)
    ensures AvailabilityCalls(trace) == AvailabilityCalls(body)
    ensures BookingCalls(trace) == BookingCalls(body)
  {
    RoundsSendNoSms(cfg, date, Partners(cfg), body);
    var sms := SmsCall(cfg.fromNumber, cfg.toNumber, FailureMessage(date), cfg.dryRun, svc.sendSms(0));
    ProjectionsSnoc(body, sms);
    trace := body + [sms];
    assert trace[..|body|] == body;
  }

  /** A failed fetch appended to complete rounds gives an aborted run within budget. */
  lemma AbortKeepsBudget(cfg: AppConfig, svc: Services, date: string, t: seq<Event>, i: nat, bookings: nat, cause: string)
    requires Rounds(cfg, date, Partners(cfg), t) && Settled(t)
    requires Replays(AvailabilityCalls(t), svc.availability, i) && i < cfg.retries
    requires Replays(BookingCalls(t), svc.booking, bookings) && bookings <= i
    requires svc.availability(i) == Err(cause)
    ensures AbortedRun(cfg, date, t + [AvailabilityCall(date, Err(cause))], cause)
    ensures WithinBudget(cfg, svc, t + [AvailabilityCall(date, Err(cause))])
  {
    var e := AvailabilityCall(date, Err(cause));
    ProjectionsSnoc(t, e);
    RoundsSendNoSms(cfg, date, Partners(cfg), t);
    assert (t + [e])[..|t|] == t;
  }

  // ---------------------------------------------------------------------------
  // What a finished run shows

  /** A run that booked holds exactly one successful booking. */
  lemma BookedRunSucceedsOnce(cfg: AppConfig, svc: Services, date: string, t: seq<Event>, j: nat)
    requires BookedRun(cfg, svc, date, t)
    requires j < |t| && IsSuccess(t[j])
    ensures j == BookingIndex(cfg, t)
  {
    if j <= BookingIndex(cfg, t) {
      BookedRunBody(cfg, svc, date, t, j);
    } else {
      BookedRunTail(cfg, svc, date, t, j);
    }
  }

  /** Up to the successful booking the run is made of rounds, which end at a success. */
  lemma BookedRunBody(cfg: AppConfig, svc: Services, date: string, t: seq<Event>, j: nat)
    requires BookedRun(cfg, svc, date, t)
    requires j <= BookingIndex(cfg, t) && IsSuccess(t[j])
    ensures j == BookingIndex(cfg, t)
  {
    var b := BookingIndex(cfg, t);
    var body := t[..b + 1];
    assert body[j] == t[j];
    SuccessEndsRounds(cfg, date, Partners(cfg), body, j);
  }

  /** After the successful booking come only partner additions and the SMS. */
  lemma BookedRunTail(cfg: AppConfig, svc: Services, date: string, t: seq<Event>, j: nat)
    requires BookedRun(cfg, svc, date, t)
    requires BookingIndex(cfg, t) < j < |t|
    ensures t[j].PartnerCall? || t[j].SmsCall?
  {
    var b := BookingIndex(cfg, t);
    if j < |t| - 1 {
      assert t[j] == t[b + 1..|t| - 1][j - b - 1];
    }
  }

  /** A run that spent its budget holds no successful booking. */
  lemma ExhaustedRunNeverSucceeds(cfg: AppConfig, svc: Services, date: string, t: seq<Event>, j: nat)
    requires ExhaustedRun(cfg, svc, date, t)
    requires j < |t|
    ensures !IsSuccess(t[j])
  {
    var body := t[..|t| - 1];
    if j < |body| {
      assert body[j] == t[j];
      if IsSuccess(body[j]) {
        SuccessEndsRounds(cfg, date, Partners(cfg), body, j);
      }
    }
  }

  /** Every slot the rounds try to book came from the list fetched just before,
      is bookable, and lies strictly inside the window. */
  lemma BookedSlotIsCandidate(cfg: AppConfig, date: string, partners: seq<string>, t: seq<Event>, j: nat)
    requires Rounds(cfg, date, partners, t)
    requires 1 <= j < |t| && t[j].BookCall?
    ensures t[j - 1].AvailabilityCall? && t[j - 1].times.Ok?
    ensures t[j].slot in t[j - 1].times.value
    ensures t[j].slot.canBook
    ensures Less(cfg.timeStart, t[j].slot.time) && Less(t[j].slot.time, cfg.timeEnd)
  {
    var times := t[j - 1].times.value;
    var slot := t[j].slot;
    Seqs.FilterMembership(Bookable(times), (ts: TimeSlot) => InWindow(ts, cfg.timeStart, cfg.timeEnd), slot);
    Seqs.FilterMembership(times, IsBookable, slot);
  }

  /** Every sleep lies inside its band, and the band names the outcome that
      caused it: (5,15) no candidate, (3,8) a booking error, (4,10) no booking id. */
  lemma SleepsMatchOutcomes(cfg: AppConfig, date: string, partners: seq<string>, t: seq<Event>, j: nat)
    requires Rounds(cfg, date, partners, t)
    requires 1 <= j < |t| && t[j].Sleep?
    ensures t[j].minSeconds <= t[j].seconds <= t[j].maxSeconds
    ensures (t[j].minSeconds, t[j].maxSeconds) == (5, 15) <==>
      t[j - 1].AvailabilityCall? && t[j - 1].times.Ok? && Candidates(cfg, t[j - 1].times.value) == []
    ensures (t[j].minSeconds, t[j].maxSeconds) == (3, 8) <==> t[j - 1].BookCall? && t[j - 1].bookError.Some?
    ensures (t[j].minSeconds, t[j].maxSeconds) == (4, 10) <==>
      t[j - 1].BookCall? && t[j - 1].bookError.None? && t[j - 1].bookingId == ""
  {
    assert Follows(cfg, date, partners, t[j - 1], t[j]);
  }
}
