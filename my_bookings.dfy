/** The signed-in user's list of bookings: which bookings may still be
    cancelled, what a cancel does to the list, how service names are looked
    up, and the `alive` flag that keeps a late answer from touching the page
    after it has been left. */
module MyBookings {
  import opened Js
  import opened Api
  import opened Calendar
  import CreateBooking

  /** A booking as `GET bookings/` lists it; `date` is `YYYY-MM-DD`, the times
      `HH:MM:SS`. */
  datatype Booking = Booking(
    id: Id, service: Id, availability: Id, status: Status, notes: string,
    date: string, startTime: string, endTime: string)

  // ---------------------------------------------------------------------------
  // cancel eligibility

  /** The arguments of `new Date(y, m - 1, d, hh, mm, 0, 0)`. */
  datatype DateArgs = DateArgs(year: int, monthIndex: int, day: int, hours: int, minutes: int)

  /** The `Number`s of the date's and the time's fields as the `Date`
      constructor receives them; `None` when one of them is NaN, which makes an
      invalid date. */
  function StartArgs(b: Booking): Option<DateArgs>
  {
    ArgsOfParts(Split(b.date, '-'), Split(b.startTime, ':'))
  }

  function ArgsOfParts(dp: seq<string>, tp: seq<string>): Option<DateArgs>
  {
    ArgsOf(NumberAt(dp, 0), NumberAt(dp, 1), NumberAt(dp, 2), NumberAt(tp, 0), NumberAt(tp, 1))
  }

  function ArgsOf(y: Option<int>, m: Option<int>, d: Option<int>, hh: Option<int>, mm: Option<int>): Option<DateArgs>
  {
    if y.Some? && m.Some? && d.Some? && hh.Some? && mm.Some? then
      Some(DateArgs(y.value, m.value - 1, d.value, hh.value, mm.value))
    else None
  }

  /** The instant those arguments build, in minutes. */
  function StartMinutes(a: DateArgs): int
  {
    DateTimeMinutes(a.year, a.monthIndex, a.day, a.hours, a.minutes)
  }

  /** `canCancelBooking`: the start is later than now. An invalid date compares
      false. Comparing to the second is exact, since the start has no seconds
      or milliseconds. */
  predicate CanCancelBooking(b: Booking, now: Moment)
    requires 1 <= now.date.month <= 12
  {
    var start := StartArgs(b);
    start.Some? && StartMinutes(start.value) * 60 > MomentSeconds(now)
  }

  /** The cancel button is enabled for a booking that is not cancelled and
      starts later than now. */
  predicate CancelAllowed(b: Booking, now: Moment)
    requires 1 <= now.date.month <= 12
  {
    b.status != Cancelled && CanCancelBooking(b, now)
  }

  /** A cancelled booking can never be cancelled again, whatever its time. */
  lemma CancelledNeverAllowed(b: Booking, now: Moment)
    requires 1 <= now.date.month <= 12 && b.status == Cancelled
    ensures !CancelAllowed(b, now)
  {
  }

  /** `Number` reads the first three fields of `p` as `y`, `m`, `d`. */
  predicate DateFieldsAre(p: seq<string>, y: int, m: int, d: int)
  {
    NumberAt(p, 0) == Some(y) && NumberAt(p, 1) == Some(m) && NumberAt(p, 2) == Some(d)
  }

  /** `Number` reads the first two fields of `p` as `h` and `mi`. */
  predicate TimeFieldsAre(p: seq<string>, h: int, mi: int)
  {
    NumberAt(p, 0) == Some(h) && NumberAt(p, 1) == Some(mi)
  }

  /** Fields that read back as numbers hand the `Date` constructor the year,
      the month index (one less than the month), the day, the hour and the
      minute. */
  lemma {:induction false} StartArgsOfFields(b: Booking, y: int, m: int, d: int, h: int, mi: int)
    requires DateFieldsAre(Split(b.date, '-'), y, m, d) && TimeFieldsAre(Split(b.startTime, ':'), h, mi)
    ensures StartArgs(b) == Some(DateArgs(y, m - 1, d, h, mi))
  {
    ArgsOfFields(Split(b.date, '-'), Split(b.startTime, ':'), y, m, d, h, mi);
  }

  /** `Number` reads the fields of a `YYYY-MM-DD` date as its year, month and day. */
  lemma {:induction false} DateFieldsOf(text: string, date: CalendarDate)
    requires ValidDate(date) && 0 <= date.year && text == IsoDate(date)
    ensures DateFieldsAre(Split(text, '-'), date.year, date.month, date.day)
  {
    IsoDateFields(date);
    var p := Split(text, '-');
    assert p[0] == IntToString(date.year);
    assert p[1] == PadStart2(IntToString(date.month));
    assert p[2] == PadStart2(IntToString(date.day));
  }

  /** `Number` reads the first two fields of an `HH:MM:SS` time as its hour and minute. */
  lemma {:induction false} TimeFieldsOf(text: string, h: nat, mi: nat, s: nat)
    requires h < 24 && mi < 60 && s < 60 && text == CreateBooking.TimeString(h, mi, s)
    ensures TimeFieldsAre(Split(text, ':'), h, mi)
  {
    var tp := CreateBooking.TimeFields(h, mi, s);
    ToNumberTwoDigits(h);
    ToNumberTwoDigits(mi);
  }

  lemma {:induction false} ArgsOfFields(dp: seq<string>, tp: seq<string>, y: int, m: int, d: int, h: int, mi: int)
    requires DateFieldsAre(dp, y, m, d) && TimeFieldsAre(tp, h, mi)
    ensures ArgsOfParts(dp, tp) == Some(DateArgs(y, m - 1, d, h, mi))
  {
  }

  /** Minutes of the day compared with a second-precise instant. */
  lemma MinuteOrder(a: int, h: int, mi: int, b: int, nh: int, nm: int, ns: int)
    requires 0 <= h < 24 && 0 <= mi < 60 && 0 <= nh < 24 && 0 <= nm < 60 && 0 <= ns < 60
    ensures (a * 1440 + h * 60 + mi) * 60 > (b * 1440 + nh * 60 + nm) * 60 + ns
      <==> a > b || (a == b && (h > nh || (h == nh && mi > nm)))
  {
    var x := a * 1440 + h * 60 + mi;
    var y := b * 1440 + nh * 60 + nm;
    assert x * 60 > y * 60 + ns <==> x > y;
    if a > b {
      assert x >= b * 1440 + 1440;
    } else if a < b {
      assert y >= a * 1440 + 1440;
    }
  }

  /** For a valid date from year 100 on (the `Date` constructor reads years 0
      to 99 as 1900 to 1999) and a time of day, the instant is later than now
      exactly when the day is later, or it is today and the `HH:MM` is later. */
  lemma {:induction false} LaterThanNow(date: CalendarDate, h: int, mi: int, now: Moment)
    requires ValidDate(date) && 100 <= date.year && 0 <= h < 24 && 0 <= mi < 60 && ValidMoment(now)
    ensures StartMinutes(DateArgs(date.year, date.month - 1, date.day, h, mi)) * 60 > MomentSeconds(now)
      <==> DateBefore(now.date, date) || (date == now.date && (h > now.hour || (h == now.hour && mi > now.minute)))
  {
    MakeDayValid(date);
    assert StartMinutes(DateArgs(date.year, date.month - 1, date.day, h, mi)) == DayNumber(date) * 1440 + h * 60 + mi;
    DayNumberOrder(now.date, date);
    MinuteOrder(DayNumber(date), h, mi, DayNumber(now.date), now.hour, now.minute, now.second);
  }

  /** A booking may be cancelled exactly when its day is after today, or it is
      today and its `HH:MM` is after the current `HH:MM`: the seconds of both
      are ignored, and a booking starting in the current minute no longer
      qualifies. The date and the start time are any texts whose fields
      `Number` reads as `date` and as `h` and `mi`, which `DateFieldsOf` and
      `TimeFieldsOf` show of the API's `YYYY-MM-DD` and `HH:MM:SS` forms. */
  lemma {:induction false} CanCancelIff(b: Booking, date: CalendarDate, h: int, mi: int, now: Moment)
    requires ValidDate(date) && 100 <= date.year && 0 <= h < 24 && 0 <= mi < 60
    requires DateFieldsAre(Split(b.date, '-'), date.year, date.month, date.day)
    requires TimeFieldsAre(Split(b.startTime, ':'), h, mi)
    requires ValidMoment(now)
    ensures CanCancelBooking(b, now)
      <==> DateBefore(now.date, date) || (date == now.date && (h > now.hour || (h == now.hour && mi > now.minute)))
  {
    StartArgsOfFields(b, date.year, date.month, date.day, h, mi);
    LaterThanNow(date, h, mi, now);
  }

  /** The two pages agree about today's slots: for a booking dated today, a
      slot that the booking page shows as past is exactly one whose booking
      the list no longer lets the user cancel. */
  lemma {:induction false} PastSlotIsNotCancellable(b: Booking, h: int, mi: int, now: Moment)
    requires ValidMoment(now) && 100 <= now.date.year && 0 <= h < 24 && 0 <= mi < 60
    requires DateFieldsAre(Split(b.date, '-'), now.date.year, now.date.month, now.date.day)
    requires TimeFieldsAre(Split(b.startTime, ':'), h, mi)
    ensures CreateBooking.SlotDisabled(now.date, CreateBooking.Availability(b.availability, b.date, b.startTime, b.endTime), now)
      <==> !CanCancelBooking(b, now)
  {
    CanCancelIff(b, now.date, h, mi, now);
    CreateBooking.SlotDisabledAt(now.date, CreateBooking.Availability(b.availability, b.date, b.startTime, b.endTime), h, mi, now);
  }

  // ---------------------------------------------------------------------------
  // service names

  /** `serviceMap`: each service's id mapped to its name; a later service with
      the same id overwrites an earlier one. */
  function ServiceMap(services: seq<Service>): map<Id, string>
    decreases |services|
  {
    if services == [] then map[]
    else
      var last := services[|services| - 1];
      ServiceMap(services[..|services| - 1])[last.id := last.name]
  }

  /** `services[j]` is the last service listed under `id`. */
  predicate LastWithId(services: seq<Service>, id: Id, j: int)
  {
    0 <= j < |services| && services[j].id == id && forall k :: j < k < |services| ==> services[k].id != id
  }

  /** The map holds exactly the listed ids. */
  lemma {:induction false} ServiceMapKeys(services: seq<Service>, id: Id)
    ensures id in ServiceMap(services) <==> exists i :: 0 <= i < |services| && services[i].id == id
    decreases |services|
  {
    if services != [] {
      var n := |services| - 1;
      var init := services[..n];
      ServiceMapKeys(init, id);
      if id in ServiceMap(init) {
        var i :| 0 <= i < |init| && init[i].id == id;
        assert services[i].id == id;
      }
      if exists i :: 0 <= i < |services| && services[i].id == id {
        var i :| 0 <= i < |services| && services[i].id == id;
        if i < n {
          assert init[i].id == id;
        }
      }
    }
  }

  /** Each listed id maps to the name of the last service listed under it. */
  lemma {:induction false} ServiceMapLastWins(services: seq<Service>, id: Id, j: int)
    requires LastWithId(services, id, j)
    ensures id in ServiceMap(services) && ServiceMap(services)[id] == services[j].name
    decreases |services|
  {
    var n := |services| - 1;
    if j < n {
      var init := services[..n];
      assert services[n].id != id;
      assert LastWithId(init, id, j);
      ServiceMapLastWins(init, id, j);
    }
  }

  /** `services.forEach((s) => m.set(s.id, s.name))`. */
  method BuildServiceMap(services: seq<Service>) returns (m: map<Id, string>)
    ensures m == ServiceMap(services)
  {
    m := map[];
    var i := 0;
    while i < |services|
      invariant 0 <= i <= |services|
      invariant m == ServiceMap(services[..i])
    {
      assert services[..i + 1][..i] == services[..i];
      m := m[services[i].id := services[i].name];
      i := i + 1;
    }
    assert services[..|services|] == services;
  }

  /** `getServiceName`: the mapped name (even an empty one, since `??` only
      replaces a missing value), or `Service #<id>`. */
  function GetServiceName(serviceMap: map<Id, string>, id: Id): (r: string)
    ensures id in serviceMap ==> r == serviceMap[id]
    ensures id !in serviceMap ==> r == "Service #" + IntToString(id)
  {
    if id in serviceMap then serviceMap[id] else "Service #" + IntToString(id)
  }

  /** A name is found exactly for a listed id; the fallback names the id, which
      reads back with `Number`. */
  lemma {:induction false} ServiceNameOf(services: seq<Service>, id: Id)
    ensures (exists i :: 0 <= i < |services| && services[i].id == id)
      ==> GetServiceName(ServiceMap(services), id) in set s | s in services :: s.name
    ensures (forall i :: 0 <= i < |services| ==> services[i].id != id) ==>
      && GetServiceName(ServiceMap(services), id) == "Service #" + IntToString(id)
      && ToNumber(GetServiceName(ServiceMap(services), id)[9..]) == Some(id)
  {
    ServiceMapKeys(services, id);
    if exists i :: 0 <= i < |services| && services[i].id == id {
      var j := LastWith(services, id);
      ServiceMapLastWins(services, id, j);
      assert services[j] in services;
    } else {
      ToNumberIntToString(id);
    }
  }

  /** The index of the last service listed under `id`. */
  lemma {:induction false} LastWith(services: seq<Service>, id: Id) returns (j: nat)
    requires exists i :: 0 <= i < |services| && services[i].id == id
    ensures LastWithId(services, id, j)
    decreases |services|
  {
    var n := |services| - 1;
    if services[n].id == id {
      j := n;
    } else {
      var i :| 0 <= i < |services| && services[i].id == id;
      assert services[..n][i].id == id;
      j := LastWith(services[..n], id);
      assert services[..n][j] == services[j];
    }
  }

  // ---------------------------------------------------------------------------
  // the list after a cancel

  /** `prev.map((b) => (b.id === id ? updated : b))`. */
  function ReplaceById(bookings: seq<Booking>, id: Id, updated: Booking): (r: seq<Booking>)
    ensures |r| == |bookings|
    ensures forall i :: 0 <= i < |r| ==> r[i] == if bookings[i].id == id then updated else bookings[i]
    decreases |bookings|
  {
    if bookings == [] then []
    else [if bookings[0].id == id then updated else bookings[0]] + ReplaceById(bookings[1..], id, updated)
  }

  /** When the server answers with the booking itself (same id), replacing is
      idempotent and the ids of the list are unchanged; and once the answer
      says it is cancelled, no booking with that id can be cancelled again. */
  lemma {:induction false} ReplaceByIdKeepsIds(bookings: seq<Booking>, id: Id, updated: Booking, now: Moment)
    requires updated.id == id && 1 <= now.date.month <= 12
    ensures ReplaceById(ReplaceById(bookings, id, updated), id, updated) == ReplaceById(bookings, id, updated)
    ensures forall i :: 0 <= i < |bookings| ==> ReplaceById(bookings, id, updated)[i].id == bookings[i].id
    ensures updated.status == Cancelled ==>
      forall i :: 0 <= i < |bookings| && bookings[i].id == id ==> !CancelAllowed(ReplaceById(bookings, id, updated)[i], now)
  {
    var once := ReplaceById(bookings, id, updated);
    var twice := ReplaceById(once, id, updated);
    assert |twice| == |once|;
    forall i | 0 <= i < |once| ensures twice[i] == once[i] {
    }
  }

  // ---------------------------------------------------------------------------
  // the page

  /** The answer of the page's two initial requests, taken together. */
  datatype LoadOutcome = Loaded(bookings: seq<Booking>, services: seq<Service>) | LoadFail(err: ApiError)

  /** The answer to `POST bookings/<id>/cancel/`: the updated booking, or an error. */
  datatype CancelOutcome = CancelOk(updated: Booking) | CancelFail(err: ApiError)

  class MyBookingsPage {
    var bookings: seq<Booking>
    var services: seq<Service>
    var loading: bool
    /** The load effect's `alive` flag, cleared by its cleanup. */
    var alive: bool

    constructor ()
      ensures bookings == [] && services == [] && loading && alive
    {
      bookings := [];
      services := [];
      loading := true;
      alive := true;
    }

    /** The effect's cleanup, when the page is left. */
    method Unmount()
      modifies this`alive
      ensures !alive
    {
      alive := false;
    }

    /** The two initial requests settled; `alerted` tells whether the
        "Unauthorized" alert was shown. Once the page is left, nothing changes. */
    method LoadSettled(outcome: LoadOutcome) returns (alerted: bool)
      modifies this`bookings, this`services, this`loading
      ensures !old(alive) ==> !alerted && bookings == old(bookings) && services == old(services) && loading == old(loading)
      ensures old(alive) ==> !loading && alerted == outcome.LoadFail?
      ensures old(alive) && outcome.Loaded? ==> bookings == outcome.bookings && services == outcome.services
      ensures outcome.LoadFail? ==> bookings == old(bookings) && services == old(services)
    {
      alerted := false;
      if !alive {
        return;
      }
      match outcome {
        case Loaded(bs, ss) =>
          bookings := bs;
          services := ss;
        case LoadFail(_) =>
          alerted := true;
      }
      loading := false;
    }

    /** `handleCancel(id)`: nothing happens unless the user confirms; a
        successful cancel replaces the booking with that id by the server's
        answer and keeps every other entry and the order; a failed one alerts
        and keeps the list. `requested` tells whether the POST was made. */
    method HandleCancel(id: Id, confirmed: bool, outcome: CancelOutcome) returns (requested: bool, alerted: bool)
      modifies this`bookings
      ensures requested == confirmed
      ensures alerted == (confirmed && outcome.CancelFail?)
      ensures bookings == if confirmed && outcome.CancelOk? then ReplaceById(old(bookings), id, outcome.updated) else old(bookings)
    {
      if !confirmed {
        return false, false;
      }
      requested := true;
      alerted := false;
      match outcome {
        case CancelOk(updated) =>
          bookings := ReplaceById(bookings, id, updated);
        case CancelFail(_) =>
          alerted := true;
      }
    }

    /** The name shown for a booking's service. */
    method ServiceName(id: Id) returns (name: string)
      ensures name == GetServiceName(ServiceMap(services), id)
    {
      var m := BuildServiceMap(services);
      name := GetServiceName(m, id);
    }
  }
}
