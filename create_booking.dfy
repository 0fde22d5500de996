/** The booking page: pick a service and a day, load that day's free time
    slots, pick a slot that has not started yet, and submit the booking.
    Slot requests are numbered by a counter (`fetchSeq`) so that only the
    answer to the latest request is shown, whatever order the answers come in. */
module CreateBooking {
  import opened Js
  import opened Api
  import opened Calendar

  /** An open slot as the API lists it; `date` is `YYYY-MM-DD` and the times
      are `HH:MM:SS`. */
  datatype Availability = Availability(id: Id, date: string, startTime: string, endTime: string)

  /** The answer to `GET services/<id>/available-slots/`. */
  datatype SlotsOutcome = SlotsOk(data: seq<Availability>) | SlotsFail(err: ApiError)

  /** The answer to `POST bookings/`. */
  datatype PostOutcome = Created | PostFail(err: ApiError)

  /** A slot request as sent to `services/<service>/available-slots/`: the
      service, the selected day (sent as the `date` parameter `DateParam`),
      and the request's number. */
  datatype SlotsRequest = SlotsRequest(service: Id, day: CalendarDate, number: nat)
  {
    /** The `date` query parameter: `dateISO` of the day. */
    function DateParam(): string
    {
      IsoDate(day)
    }
  }

  /** The body of `POST bookings/`. */
  datatype BookingPayload = BookingPayload(service: Id, availability: Id, notes: string)

  const SelectFirst := "Please select service and time."
  const Booked := "Booking created successfully."
  const CreateFailed := "Could not create booking."

  // ---------------------------------------------------------------------------
  // the service select box

  /** `Number(value) || ""`: a value that reads as 0 or NaN leaves nothing selected. */
  function PickOf(n: Option<int>): (r: Pick)
    ensures r.Truthy() || r == Unset
    ensures r.Truthy() <==> n.Some? && n.value != 0
    ensures r.Truthy() ==> r.id == n.value
  {
    if n.Some? && n.value != 0 then Chosen(n.value) else Unset
  }

  /** Choosing a service's option (whose value is `String(id)`) selects that
      service, for every id except 0. */
  lemma {:induction false} SelectServiceOption(id: Id)
    requires id != 0
    ensures PickOf(ToNumber(IntToString(id))) == Chosen(id)
  {
    ToNumberIntToString(id);
  }

  // ---------------------------------------------------------------------------
  // past slots

  /** `isSameDay`: same year, month and day of the month. */
  function IsSameDay(a: CalendarDate, b: CalendarDate): (r: bool)
    ensures r <==> a == b
  {
    a.year == b.year && a.month == b.month && a.day == b.day
  }

  /** `toMinutes`: the first two `:`-separated fields read with `Number`, as
      hours and minutes; `None` stands for NaN (a missing or unreadable field). */
  function ToMinutes(hhmmss: string): Option<int>
  {
    var parts := Split(hhmmss, ':');
    MinutesOf(NumberAt(parts, 0), NumberAt(parts, 1))
  }

  /** `hh * 60 + mm`, NaN when either operand is. */
  function MinutesOf(hh: Option<int>, mm: Option<int>): Option<int>
  {
    if hh.Some? && mm.Some? then Some(hh.value * 60 + mm.value) else None
  }

  /** `nowMinutes`: minutes since local midnight, seconds dropped. */
  function NowMinutes(now: Moment): int
  {
    now.hour * 60 + now.minute
  }

  /** A slot button is disabled when the selected day is today and the slot
      starts at or before the current minute. A NaN start compares false. */
  predicate SlotDisabled(selected: CalendarDate, slot: Availability, now: Moment)
  {
    IsSameDay(selected, now.date)
    && var start := ToMinutes(slot.startTime);
    start.Some? && start.value <= NowMinutes(now)
  }

  /** The API's `HH:MM:SS` form of a time of day. */
  function TimeString(h: nat, m: nat, s: nat): string
  {
    PadStart2(NatToString(h)) + ":" + PadStart2(NatToString(m)) + ":" + PadStart2(NatToString(s))
  }

  /** `toMinutes` reads an `HH:MM:SS` time as `60 * HH + MM`: the seconds are ignored. */
  lemma {:induction false} ToMinutesOfTime(h: nat, m: nat, s: nat)
    requires h < 24 && m < 60 && s < 60
    ensures ToMinutes(TimeString(h, m, s)) == Some(h * 60 + m)
  {
    var parts := TimeFields(h, m, s);
    ToNumberTwoDigits(h);
    ToNumberTwoDigits(m);
    ToMinutesOfFields(TimeString(h, m, s), h, m);
  }

  lemma ToMinutesOfFields(t: string, h: int, m: int)
    requires NumberAt(Split(t, ':'), 0) == Some(h) && NumberAt(Split(t, ':'), 1) == Some(m)
    ensures ToMinutes(t) == Some(h * 60 + m)
  {
  }

  /** The three fields of an `HH:MM:SS` time. */
  lemma {:induction false} TimeFields(h: nat, m: nat, s: nat) returns (parts: seq<string>)
    requires h < 24 && m < 60 && s < 60
    ensures parts == Split(TimeString(h, m, s), ':')
    ensures parts == [PadStart2(NatToString(h)), PadStart2(NatToString(m)), PadStart2(NatToString(s))]
  {
    var hh := PadStart2(NatToString(h));
    var mm := PadStart2(NatToString(m));
    var ss := PadStart2(NatToString(s));
    TwoDigits(h);
    TwoDigits(m);
    TwoDigits(s);
    DigitsExclude(hh, ':');
    DigitsExclude(mm, ':');
    DigitsExclude(ss, ':');
    SplitThree(hh, mm, ss, ':');
    parts := [hh, mm, ss];
  }

  /** A slot starting at `h:m:s` is disabled exactly when the selected day is
      today and the slot's minute is not later than the current minute. */
  lemma {:induction false} SlotDisabledIff(selected: CalendarDate, id: Id, date: string, h: nat, m: nat, s: nat, endTime: string, now: Moment)
    requires h < 24 && m < 60 && s < 60 && 0 <= now.minute < 60
    ensures SlotDisabled(selected, Availability(id, date, TimeString(h, m, s), endTime), now)
      <==> selected == now.date && (h < now.hour || (h == now.hour && m <= now.minute))
  {
    ToMinutesOfTime(h, m, s);
  }

  /** The same for any start time whose first two fields `Number` reads as
      `h` and `m`. */
  lemma {:induction false} SlotDisabledAt(selected: CalendarDate, slot: Availability, h: int, m: int, now: Moment)
    requires NumberAt(Split(slot.startTime, ':'), 0) == Some(h) && NumberAt(Split(slot.startTime, ':'), 1) == Some(m)
    requires 0 <= m < 60 && 0 <= now.minute < 60
    ensures SlotDisabled(selected, slot, now)
      <==> selected == now.date && (h < now.hour || (h == now.hour && m <= now.minute))
  {
    ToMinutesOfFields(slot.startTime, h, m);
  }

  /** Slots on any other day than today are never disabled, and neither is a
      slot whose start time cannot be read. */
  lemma SlotEnabled(selected: CalendarDate, slot: Availability, now: Moment)
    requires selected != now.date || ToMinutes(slot.startTime).None?
    ensures !SlotDisabled(selected, slot, now)
  {
  }

  // ---------------------------------------------------------------------------
  // submitting

  /** The check at the start of `handleSubmit`: with a service and a slot
      selected, the payload to POST; otherwise nothing is posted. */
  function Checked(serviceId: Pick, availabilityId: Pick): Option<BookingPayload>
  {
    if serviceId.Truthy() && availabilityId.Truthy() then
      Some(BookingPayload(serviceId.id, availabilityId.id, ""))
    else
      None
  }

  /** `canSubmit`: the button is enabled exactly when the handler's check
      would pass and no submission is running; the handler itself does not
      look at `submitting`. */
  function CanSubmit(serviceId: Pick, availabilityId: Pick, submitting: bool): (r: bool)
    ensures r <==> Checked(serviceId, availabilityId).Some? && !submitting
    ensures r ==> Checked(serviceId, availabilityId) == Some(BookingPayload(serviceId.id, availabilityId.id, ""))
  {
    (serviceId.Truthy() && availabilityId.Truthy()) && !submitting
  }

  /** The message for a failed booking POST: for an axios error
      `non_field_errors[0] || detail || message` with no fallback after the
      message; for another `Error` its message; otherwise the fallback. */
  function SubmitErrorMessage(err: ApiError): string
  {
    match err
    case AxiosError(message, _, body) => Or(NonFieldError(body), Or(Detail(body), message))
    case PlainError(message) => message
    case OtherThrown => CreateFailed
  }

  /** For an axios error the message is the first non-empty of the first
      non-field error, the detail and the transport message (the order is the
      reverse of the login and admin pages'); the fallback is reached only for
      a value that is not an `Error`, and an axios error whose three strings
      are all empty yields an empty message. */
  lemma {:induction false} SubmitErrorPrecedence(err: ApiError)
    ensures err.AxiosError? ==>
      SubmitErrorMessage(err) == FirstTruthy([NonFieldError(err.body), Detail(err.body)], err.message)
    ensures err.PlainError? ==> SubmitErrorMessage(err) == err.message
    ensures err.OtherThrown? ==> SubmitErrorMessage(err) == CreateFailed
    ensures err.AxiosError? && NonFieldError(err.body) == "" && Detail(err.body) == "" && err.message == ""
      ==> SubmitErrorMessage(err) == ""
  {
    if err.AxiosError? {
      var c := [NonFieldError(err.body), Detail(err.body)];
      assert c[1..] == [c[1]];
      assert [c[1]][1..] == [];
    }
  }

  // ---------------------------------------------------------------------------
  // last-issued-wins slot loading

  /** What the slot requests leave behind: the request counter, the list shown
      and the loading flag. */
  datatype FetchState = FetchState(counter: nat, slots: seq<Availability>, loadingSlots: bool)

  /** The list an answer puts on screen: its data, or nothing on a failure. */
  function Received(o: SlotsOutcome): seq<Availability>
  {
    if o.SlotsOk? then o.data else []
  }

  /** `fetchSlots` up to its `await`: the counter is incremented and its new
      value becomes the request's number. */
  function Issued(st: FetchState): (r: FetchState)
    ensures r.counter > st.counter && r.slots == st.slots && r.loadingSlots
  {
    st.(counter := st.counter + 1, loadingSlots := true)
  }

  /** `fetchSlots` after its answer: only the request whose number is still the
      counter updates the list and clears the loading flag. */
  function Settled(st: FetchState, number: nat, o: SlotsOutcome): (r: FetchState)
    ensures number != st.counter ==> r == st
    ensures number == st.counter ==> r == FetchState(st.counter, Received(o), false)
  {
    if number == st.counter then st.(slots := Received(o), loadingSlots := false) else st
  }

  /** One event of a run: a request goes out, or request `number` is answered. */
  datatype Event = Issue | Settle(number: nat, outcome: SlotsOutcome)

  function Step(st: FetchState, e: Event): FetchState
  {
    match e
    case Issue => Issued(st)
    case Settle(number, o) => Settled(st, number, o)
  }

  /** The state after a sequence of events, in order. */
  function Run(st: FetchState, events: seq<Event>): FetchState
    decreases |events|
  {
    if events == [] then st else Step(Run(st, events[..|events| - 1]), events[|events| - 1])
  }

  /** Only requests already sent are answered. */
  predicate Causal(st: FetchState, events: seq<Event>)
  {
    forall j :: 0 <= j < |events| && events[j].Settle? ==> events[j].number <= Run(st, events[..j]).counter
  }

  lemma RunPrefix(st: FetchState, events: seq<Event>, j: nat)
    requires j < |events|
    ensures Run(st, events[..j + 1]) == Step(Run(st, events[..j]), events[j])
  {
    assert events[..j + 1][..j] == events[..j];
  }

  /** The counter never goes down, and goes up across every `Issue`. */
  lemma {:induction false} CounterGrows(st: FetchState, events: seq<Event>, a: nat, b: nat)
    requires a <= b <= |events|
    ensures Run(st, events[..a]).counter <= Run(st, events[..b]).counter
    ensures forall j :: a <= j < b && events[j].Issue? ==> Run(st, events[..a]).counter < Run(st, events[..b]).counter
    decreases b - a
  {
    if a < b {
      RunPrefix(st, events, a);
      CounterGrows(st, events, a + 1, b);
    }
  }

  /** Answers to other requests after the current one was answered change nothing. */
  lemma {:induction false} StaleTail(st: FetchState, events: seq<Event>, k: nat, i: nat)
    requires k < i <= |events|
    requires forall j :: k < j < |events| ==> events[j].Settle? && events[j].number != Run(st, events[..k + 1]).counter
    ensures Run(st, events[..i]) == Run(st, events[..k + 1])
    decreases i
  {
    if i > k + 1 {
      StaleTail(st, events, k, i - 1);
      RunPrefix(st, events, i - 1);
    }
  }

  /** Last issued wins: in any run where answers only come for requests already
      sent, once the latest request is answered (and no request with the same
      number is answered again) the list is that answer's, and the loading flag
      is clear, whatever other answers arrive before or after it. */
  lemma {:induction false} LastIssuedWins(st: FetchState, events: seq<Event>, k: nat)
    requires Causal(st, events)
    requires k < |events| && events[k].Settle? && events[k].number == Run(st, events).counter
    requires forall j :: k < j < |events| ==> !(events[j].Settle? && events[j].number == events[k].number)
    ensures Run(st, events).slots == Received(events[k].outcome)
    ensures !Run(st, events).loadingSlots
  {
    var n := events[k].number;
    assert events[..|events|] == events;
    CounterGrows(st, events, k, |events|);
    assert Run(st, events[..k]).counter == n;
    CounterGrows(st, events, k + 1, |events|);
    RunPrefix(st, events, k);
    assert Run(st, events[..k + 1]) == FetchState(n, Received(events[k].outcome), false);
    forall j | k < j < |events|
      ensures events[j].Settle? && events[j].number != Run(st, events[..k + 1]).counter
    {
    }
    StaleTail(st, events, k, |events|);
  }

  // ---------------------------------------------------------------------------
  // the page

  class CreateBookingPage {
    var serviceId: Pick
    var selectedDate: CalendarDate
    var slots: seq<Availability>
    var availabilityId: Pick
    var successMsg: string
    var errorMsg: string
    var loadingSlots: bool
    var submitting: bool
    var fetchSeq: nat
    /** The numbers given to slot requests so far. */
    ghost var issued: set<nat>

    ghost predicate Valid()
      reads this
    {
      forall n :: n in issued ==> 1 <= n <= fetchSeq
    }

    function Fetch(): FetchState
      reads this
    {
      FetchState(fetchSeq, slots, loadingSlots)
    }

    /** The page as it mounts: no service, today's date, nothing loaded. The
        mount run of the reset effect finds no service and does nothing more. */
    constructor (today: CalendarDate)
      ensures Valid() && issued == {}
      ensures serviceId == Unset && selectedDate == today && slots == [] && availabilityId == Unset
      ensures successMsg == "" && errorMsg == "" && !loadingSlots && !submitting && fetchSeq == 0
    {
      serviceId := Unset;
      selectedDate := today;
      slots := [];
      availabilityId := Unset;
      successMsg := "";
      errorMsg := "";
      loadingSlots := false;
      submitting := false;
      fetchSeq := 0;
      issued := {};
    }

    /** `fetchSlots(sid, dateISO)` up to its `await`: the request gets a number
        greater than every number given before. */
    method FetchSlots(sid: Id, day: CalendarDate) returns (request: SlotsRequest)
      requires Valid()
      modifies this`fetchSeq, this`loadingSlots, this`issued
      ensures Valid()
      ensures request == SlotsRequest(sid, day, fetchSeq)
      ensures Fetch() == Issued(old(Fetch()))
      ensures forall n :: n in old(issued) ==> n < request.number
      ensures issued == old(issued) + {request.number}
    {
      fetchSeq := fetchSeq + 1;
      issued := issued + {fetchSeq};
      loadingSlots := true;
      request := SlotsRequest(sid, day, fetchSeq);
    }

    /** `fetchSlots` once request `number` is answered. */
    method SlotsAnswered(number: nat, outcome: SlotsOutcome)
      modifies this`slots, this`loadingSlots
      ensures Fetch() == Settled(old(Fetch()), number, outcome)
    {
      if number != fetchSeq {
        return;
      }
      match outcome {
        case SlotsOk(data) =>
          slots := data;
        case SlotsFail(_) =>
          slots := [];
      }
      loadingSlots := false;
    }

    /** The effect on `[serviceId, dateISO]`: clear the list, the selected slot
        and both messages, then request the slots if a service is selected. */
    method SelectionChanged() returns (request: Option<SlotsRequest>)
      requires Valid()
      modifies this`slots, this`availabilityId, this`successMsg, this`errorMsg, this`fetchSeq, this`loadingSlots, this`issued
      ensures Valid()
      ensures slots == [] && availabilityId == Unset && successMsg == "" && errorMsg == ""
      ensures request.Some? <==> serviceId.Truthy()
      ensures request.Some? ==>
        && request.value == SlotsRequest(serviceId.id, selectedDate, fetchSeq)
        && fetchSeq == old(fetchSeq) + 1 && loadingSlots && issued == old(issued) + {fetchSeq}
      ensures request.None? ==> fetchSeq == old(fetchSeq) && loadingSlots == old(loadingSlots) && issued == old(issued)
    {
      slots := [];
      availabilityId := Unset;
      successMsg := "";
      errorMsg := "";
      if !serviceId.Truthy() {
        return None;
      }
      var r := FetchSlots(serviceId.id, selectedDate);
      return Some(r);
    }

    /** The service select box changed to `value`; the effect runs only when
        the selected service actually changed. */
    method SelectService(value: string) returns (request: Option<SlotsRequest>)
      requires Valid()
      modifies this
      ensures Valid()
      ensures serviceId == PickOf(ToNumber(value)) && selectedDate == old(selectedDate)
      ensures submitting == old(submitting)
      ensures serviceId == old(serviceId) ==>
        && request.None? && slots == old(slots) && availabilityId == old(availabilityId)
        && successMsg == old(successMsg) && errorMsg == old(errorMsg)
        && fetchSeq == old(fetchSeq) && loadingSlots == old(loadingSlots) && issued == old(issued)
      ensures serviceId != old(serviceId) ==>
        && slots == [] && availabilityId == Unset && successMsg == "" && errorMsg == ""
        && (request.Some? <==> serviceId.Truthy())
      ensures request.Some? ==>
        && request.value == SlotsRequest(serviceId.id, selectedDate, fetchSeq)
        && fetchSeq == old(fetchSeq) + 1 && loadingSlots && issued == old(issued) + {fetchSeq}
      ensures request.None? ==> fetchSeq == old(fetchSeq) && loadingSlots == old(loadingSlots) && issued == old(issued)
    {
      var v := PickOf(ToNumber(value));
      if v == serviceId {
        return None;
      }
      serviceId := v;
      request := SelectionChanged();
    }

    /** The date picker changed (a cleared picker gives `null`, which is
        ignored); the effect runs only when the `YYYY-MM-DD` string changed. */
    method SelectDate(d: Option<CalendarDate>) returns (request: Option<SlotsRequest>)
      requires Valid()
      modifies this
      ensures Valid()
      ensures serviceId == old(serviceId) && submitting == old(submitting)
      ensures selectedDate == if d.Some? then d.value else old(selectedDate)
      ensures IsoDate(selectedDate) == IsoDate(old(selectedDate)) ==>
        && request.None? && slots == old(slots) && availabilityId == old(availabilityId)
        && successMsg == old(successMsg) && errorMsg == old(errorMsg)
        && fetchSeq == old(fetchSeq) && loadingSlots == old(loadingSlots) && issued == old(issued)
      ensures IsoDate(selectedDate) != IsoDate(old(selectedDate)) ==>
        && slots == [] && availabilityId == Unset && successMsg == "" && errorMsg == ""
        && (request.Some? <==> serviceId.Truthy())
      ensures request.Some? ==>
        && request.value == SlotsRequest(serviceId.id, selectedDate, fetchSeq)
        && fetchSeq == old(fetchSeq) + 1 && loadingSlots && issued == old(issued) + {fetchSeq}
      ensures request.None? ==> fetchSeq == old(fetchSeq) && loadingSlots == old(loadingSlots) && issued == old(issued)
    {
      if d.None? {
        return None;
      }
      var before := IsoDate(selectedDate);
      selectedDate := d.value;
      if IsoDate(selectedDate) == before {
        return None;
      }
      request := SelectionChanged();
    }

    /** A click on a slot button; a disabled button does not react. */
    method ClickSlot(slot: Availability, now: Moment)
      requires slot in slots
      modifies this`availabilityId
      ensures availabilityId == if SlotDisabled(selectedDate, slot, now) then old(availabilityId) else Chosen(slot.id)
    {
      if !SlotDisabled(selectedDate, slot, now) {
        availabilityId := Chosen(slot.id);
      }
    }

    /** The "clear selection" button. */
    method ClearSlot()
      modifies this`availabilityId
      ensures availabilityId == Unset
    {
      availabilityId := Unset;
    }

    /** `handleSubmit`, given the POST's answer and the answer to the slot
        request it then makes. The function does not look at `submitting`:
        only the disabled button keeps a second submission out. */
    method HandleSubmit(post: PostOutcome, refetch: SlotsOutcome) returns (payload: Option<BookingPayload>, reload: Option<SlotsRequest>)
      requires Valid()
      modifies this
      ensures Valid()
      ensures serviceId == old(serviceId) && selectedDate == old(selectedDate)
      ensures submitting == (payload.None? && old(submitting))
      ensures payload == Checked(old(serviceId), old(availabilityId))
      ensures payload.Some? <==> CanSubmit(old(serviceId), old(availabilityId), false)
      ensures payload.None? ==>
        && errorMsg == SelectFirst && successMsg == ""
        && availabilityId == old(availabilityId) && Fetch() == old(Fetch())
      ensures payload.Some? ==> payload.value == BookingPayload(serviceId.id, old(availabilityId).id, "")
      ensures reload.Some? <==> payload.Some? && post.Created?
      ensures reload.None? ==> issued == old(issued)
      ensures payload.Some? && post.Created? ==>
        && reload == Some(SlotsRequest(serviceId.id, selectedDate, old(fetchSeq) + 1))
        && issued == old(issued) + {old(fetchSeq) + 1}
        && successMsg == Booked && errorMsg == "" && availabilityId == Unset
        && Fetch() == Settled(Issued(old(Fetch())), old(fetchSeq) + 1, refetch)
        && slots == Received(refetch) && !loadingSlots
      ensures payload.Some? && post.PostFail? ==>
        && errorMsg == SubmitErrorMessage(post.err) && successMsg == ""
        && availabilityId == old(availabilityId) && Fetch() == old(Fetch())
    {
      successMsg := "";
      errorMsg := "";
      if !serviceId.Truthy() || !availabilityId.Truthy() {
        errorMsg := SelectFirst;
        return None, None;
      }
      submitting := true;
      payload := Some(BookingPayload(serviceId.id, availabilityId.id, ""));
      reload := None;
      if post.Created? {
        var request := BookingCreated(refetch);
        reload := Some(request);
      } else {
        errorMsg := SubmitErrorMessage(post.err);
      }
      submitting := false;
    }

    /** The rest of `handleSubmit` after the POST succeeded: the notice, the
        awaited reload of the same service and day, and the cleared slot. */
    method BookingCreated(refetch: SlotsOutcome) returns (request: SlotsRequest)
      requires Valid() && serviceId.Chosen?
      modifies this`successMsg, this`fetchSeq, this`loadingSlots, this`issued, this`slots, this`availabilityId
      ensures Valid()
      ensures request == SlotsRequest(serviceId.id, selectedDate, old(fetchSeq) + 1)
      ensures issued == old(issued) + {request.number}
      ensures forall n :: n in old(issued) ==> n < request.number
      ensures successMsg == Booked && availabilityId == Unset
      ensures Fetch() == Settled(Issued(old(Fetch())), old(fetchSeq) + 1, refetch)
      ensures slots == Received(refetch) && !loadingSlots
    {
      successMsg := Booked;
      request := FetchSlots(serviceId.id, selectedDate);
      SlotsAnswered(request.number, refetch);
      availabilityId := Unset;
    }
  }
}
